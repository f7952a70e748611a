# doom-crafter, modelled in Dafny

doom-crafter turns Minecraft skins (64x64 RGBA atlases) into Doom player
sprites and packs them into WAD archives. For each skin it builds a 3D
puppet from the atlas: six cuboid limbs textured from the atlas, and six
"trims" (helmet, shirt, sleeves, pants) whose opaque pixels become
one-cell quads floating just outside the limbs. It poses that puppet
frame by frame in front of an orbiting camera and saves every picture
into a temporary directory. A producer then reads the directories back,
sorts the files and writes the lumps of the WAD: pictures, `S_SKIN`,
`DECORATE`, `MAPINFO`, and for the fist weapon an ACS library.

The model keeps what the program decides and drops what it merely
computes on a GPU:

- **Atlas and textures** (`Patches`, `Textures`). Atlas rectangles and
  the skin net they unfold into are modelled. So are the texture of a
  limb face, row-major and gamma-corrected, and the texels of a trim:
  one per fully opaque pixel, column by column, standing off the face
  at 1.1 times its distance from the centre (0.05 units per unit of
  depth beyond it, 0.4 units for the 8-deep head).
- **Puppet** (`Geometry`, `Puppet`, `Cameras`). The `Skin`, `Limb` and
  `Trim` classes are Dafny classes. Transformations are kept as
  symbolic descriptors (which pivot, which turns) rather than
  floating-point matrices. A camera only orbits by eighth turns about a
  vertical axis or moves along the world z axis, so it is kept exactly:
  its yaw in eighth turns and its place in the horizontal plane, in
  tenths, as integer coefficients of the eight directions. Orbits and
  translations compose exactly, in the order they are made.
- **Rendering schedules** (`Disks`, `Sprites`, `SkinRenders`,
  `Mugshots`, `Fists`). Rendering is a schedule of saved pictures. A
  `Folder` records, for every file it holds, the camera and the pose
  the picture showed. Each render method is proved to leave exactly the
  directory a reference list of pictures describes.
- **WAD producers** (`Listings`, `Producing`, `WadContents`,
  `Converting`). These list, sort and push lumps. `produce_s_skin_wad`
  is modelled as written: it passes the sprite where the name belongs
  and the name where the sprite belongs. The skin's name then lands in
  the sprite field of `S_SKIN` and the sprite prefix in its name field.
  `FillSSkinWad` states exactly that. `convert` records each sprite
  prefix with its backslashes escaped as `^`, and the S_SKIN and
  DECORATE texts would then name sprites no lump carries; the model
  records the prefix as given (see "Findings").
- **Earlier generations** (`Classic` for `src/minecraft.rs`, `Prisms`
  for `src/convert.rs`, `DoomWads` for `src/doom.rs`, `FistWads` for
  `src/fists.rs`). These are earlier versions of the same pipeline,
  kept in the repository. Each is modelled in its own module on top of
  the shared ones. The renderer of `src/convert.rs` has its own
  128x128 viewport and camera, at `(0, 0, 2)`, and turns it about the
  plane of the prisms, `(0, 0, depth)`, rather than about the origin.
- **Front end** (`Prompts`, `src/main.rs`). The terminal UI's item list,
  the validated item prompt and its field cycle, the WAD name prompt,
  and the closing message. The item table and the quit question act only on
  pressed keys; the prompts, the fists question and the closing message
  act on every key event, repeats and releases included.

Integer widths: patch fields are `u32` in the program, and the
subtractions in `as_left`, `as_top`, `as_bottom` and `letter_offset`
are guarded by preconditions that keep them non-negative. Texel
coordinates use `i32` division on non-negative operands, where it agrees
with Dafny's. Lengths are tenths of a world unit (5.5 is 55), texel
positions half-units of the trim grid, and angles exact fractions of
degrees.

The front end calls `convert::convert_all` with the items, the WAD name
and the compiler path, but the `convert_all` of `src/convert.rs` takes
an iterator of path and name pairs; the version the front end was
written against is not part of this model. The model of `src/main.rs`
stops where the front end hands over the items and the file name. The
front end names the fist WAD by replacing every `.` with `_fists.`
(`Prompts.NewWithFists`), while `produce_s_skin_and_fist_wads` saves it
with every `.` replaced by `-fist.` (`Producing.FistWadPath`); both
are modelled as written.

## Model

| member | source | states |
|---|---|---|
| Common.ReplaceCharAt | src/converting.rs:144 | a one-character `replace` by one character keeps the length and changes exactly the positions holding the pattern |
| Common.ReplaceRoundTrip | src/producing.rs:96 | escaping `\` as `^` and back restores a sprite prefix that contains no `^` |
| Common.ReplaceAppend | src/main.rs:571 | `replace` distributes over concatenation |
| Common.ReplaceRemoves | src/rendering.rs:519 | after replacing a character by text free of it, the character no longer occurs |
| Common.Pop | src/producing.rs:140 | `String::pop` drops the last character, and leaves an empty string empty |
| Common.Utf8Width | src/main.rs:354 | a scalar value takes 1 to 4 UTF-8 bytes, and 1 exactly for ASCII |
| Common.Utf8LenAscii | src/main.rs:354 | `str::len` is at least the character count, and equal to it exactly when every character is ASCII |
| Common.ToUpper | src/main.rs:384-385 | upper-casing keeps the length, turns every ASCII lower-case letter into its capital (32 code points lower) and keeps every other character, so no lower-case letter is left |
| Common.ToUpperIdempotent | src/main.rs:384-385 | upper-casing twice is upper-casing once, and a string is left as it is exactly when it holds no lower-case letter |
| Common.NatToString | src/rendering.rs:36-39 | decimal formatting of an index is a non-empty string of digits |
| Common.DigitsApart | src/rendering.rs:36-39 | different digits are different characters |
| Common.NatToStringInjective | src/rendering.rs:36-39 | different skin indices give different directory suffixes |
| Patches.NetLayout | src/rendering.rs:1478-1527 | left, front, right and back tile one row, top and bottom sit above front and right, and each derived face has the extents of the cuboid side it covers |
| Patches.NetDisjoint | src/rendering.rs:1478-1527 | the six derived rectangles of a non-degenerate patch share no atlas cell |
| Patches.FaceArea | src/rendering.rs:1478-1527 | each derived rectangle has as many cells as the cuboid side it textures |
| Patches.RenderingPatches | src/rendering.rs:1442-1457 | the sixteen patch constants unfold without `u32` underflow and their whole nets lie in a 64x64 atlas |
| Patches.MinecraftPatches | src/minecraft.rs:588-601 | the twelve constants of the first generation are among them and enjoy the same guarantee |
| Patches.ConvertPatches | src/convert.rs:252-257 | the six constants of the prism renderer are among them and enjoy the same guarantee |
| Patches.SlimIsNarrower | src/rendering.rs:1445-1457 | every slim arm and sleeve is its regular counterpart one cell narrower |
| Geometry.FaceCornersOnBox | src/rendering.rs:1010-1079 | every corner of every face lies on the box `center +- half_size`, in the face's own plane on its outward side, and the four corners are distinct |
| Geometry.OppositeFacesApart | src/rendering.rs:1010-1079 | opposite faces lie a full extent apart |
| Textures.CroppedAt | src/rendering.rs:1110-1120 | a face texture has `width * height` pixels, and pixel `(i, j)` is the gamma-corrected atlas pixel `(x + i, y + j)` |
| Textures.CropTexture | src/rendering.rs:1110-1120 | the pixel loop of `Face::new` yields the cropped, corrected rectangle in row-major order |
| Textures.TexelPositionInjective | src/rendering.rs:1171-1288 | two cells of one face never get the same texel position |
| Textures.InColumn | src/rendering.rs:1172-1187 | a texel of one column comes from an opaque cell of it, and every opaque cell gives one |
| Textures.InColumns | src/rendering.rs:1171-1188 | the same for the first `m` columns of a face |
| Textures.FaceTexelMembership | src/rendering.rs:1169-1188 | the texel of a cell is emitted exactly when its alpha is 255 (`ALPHA_MIN`) |
| Textures.FaceTexelShape | src/rendering.rs:1171-1288 | every texel of a face carries that face, lies in the plane parallel to it at 1.1 times its distance from the centre (`UNIT / 2 * depth`, 0.05 units per unit of depth beyond the face), and is opaque |
| Textures.ColumnsDistinct | src/rendering.rs:1171-1188 | no two columns emit the same texel |
| Textures.ColumnDistinct | src/rendering.rs:1172-1187 | no column emits the same texel twice |
| Textures.FaceTexelsDistinct | src/rendering.rs:1171-1188 | a face emits every texel once, so exactly one texel per opaque pixel |
| Textures.CollectColumn | src/rendering.rs:1172-1187 | the inner loop appends exactly the column's texels |
| Textures.CollectFace | src/rendering.rs:1171-1188 | one nested loop appends exactly the face's texels |
| Textures.LoadTexels | src/rendering.rs:1167-1288 | the six nested loops of `Trim::load` give the texel list `TrimTexels`, face after face |
| Textures.TrimTexelsByFace | src/rendering.rs:1167-1288 | the texels of a trim tagged with a face are exactly that face's texels |
| Textures.TexelQuadFlat | src/rendering.rs:1336-1373 | a texel quad is a unit square, flat in its face's plane, with four distinct corners |
| Puppet.NewFace | src/rendering.rs:1081-1140 | a face model is built from the derived rectangle's image, with no transformation assigned and the default white colour |
| Puppet.NewFaces | src/rendering.rs:963-970 | a limb's six faces are front, right, back, left, top and bottom, in that order, each from its derived rectangle |
| Puppet.Limb.Load | src/rendering.rs:955-976 | a loaded limb has the six faces of its patch, base `translation`, and the identity placed at that base |
| Puppet.Limb.SetTransformation | src/rendering.rs:978-982 | every face is given `transformation * matrix`, replacing the previous pose; the face images stay |
| Puppet.Limb.RotateAround | src/rendering.rs:984-992 | the limb is posed by the rotation about `pivot` through the given turns |
| Puppet.Limb.ApplyColor | src/rendering.rs:998-1003 | every face takes the colour, and nothing else changes |
| Puppet.Limb.ApplyRed | src/rendering.rs:994-996 | every face takes `(255, s, s, 255)` |
| Puppet.Trim.Load | src/rendering.rs:1160-1294 | a loaded trim holds one texel model per texel of `TrimTexels`, base `translation`, and no transformation assigned |
| Puppet.Trim.SetTransformation | src/rendering.rs:1296-1300 | every texel is given `transformation * matrix`, replacing the previous pose; the texels themselves stay |
| Puppet.Trim.RotateAround | src/rendering.rs:1302-1310 | the trim is posed by the rotation about `pivot` through the given turns |
| Puppet.Trim.ApplyColor | src/rendering.rs:1316-1320 | every texel takes the colour, and nothing else changes |
| Puppet.Trim.ApplyRed | src/rendering.rs:1312-1314 | every texel takes `(255, s, s, 255)` |
| Puppet.LimbLayout | src/rendering.rs:588-772 | the six limbs' patches, names and bases, regular or slim, each with its whole net inside a 64x64 atlas |
| Puppet.TrimLayout | src/rendering.rs:588-772 | the same for the six trims |
| Puppet.FitsLarger | src/rendering.rs:1110-1111 | a net inside 64x64 can be read from any atlas at least that large |
| Puppet.LoadedState | src/rendering.rs:588-772 | the state after loading is well formed, all parts white |
| Puppet.CrouchSpec | src/rendering.rs:774-801 | `load_crouched` keeps a skin well formed |
| Puppet.Skin.Load | src/rendering.rs:588-772 | the atlas cell (55, 20) picks the slim or regular layout; every limb and trim is fresh, cut from its layout's patch, and the state is `LoadedState` |
| Puppet.Skin.LoadClassic | src/minecraft.rs:119-138 | the first generation always takes the regular layout and the raw atlas bytes |
| Puppet.Skin.Crouch | src/rendering.rs:776-798 | the base shifts of `load_crouched` and the re-placing of head and helmet give `CrouchSpec` |
| Puppet.Skin.PoseLimbs | src/rendering.rs:804-806 | each limb gets its own pose, in slot order, and the trims are untouched |
| Puppet.Skin.PoseTrims | src/rendering.rs:807-809 | each trim gets its own pose, and the limbs are untouched |
| Puppet.Skin.RedLimbs | src/rendering.rs:913-915 | every limb is tinted, and the trims are untouched |
| Puppet.Skin.RedTrims | src/rendering.rs:916-918 | every trim is tinted, and the limbs are untouched |
| Puppet.Skin.Reset | src/rendering.rs:803-810 | every part gets the identity at its base |
| Puppet.Skin.ResetCrouched | src/rendering.rs:812-829 | torso, arms, shirt and sleeves are bent 30 degrees about `CROUCH_PIVOT`, and every other part gets the identity |
| Puppet.Skin.FlapRightArmAndLeg | src/rendering.rs:831-842 | right leg and left arm swing +30 degrees, right arm and left leg -30, each about its joint, trims with their limbs, head and torso unchanged |
| Puppet.Skin.FlapLeftArmAndLeg | src/rendering.rs:844-855 | the opposite swings |
| Puppet.Skin.FlapRightArmAndLegCrouched | src/rendering.rs:857-871 | the right flap with the arms about the crouched shoulders |
| Puppet.Skin.FlapLeftArmAndLegCrouched | src/rendering.rs:873-887 | the left flap with the arms about the crouched shoulders |
| Puppet.Skin.Punch | src/rendering.rs:889-898 | a reset, then the right arm and sleeve turned about the right shoulder by the turns of frame `E` or `F` |
| Puppet.Skin.PunchCrouched | src/rendering.rs:900-909 | a crouched reset, then the same turns about the crouched shoulder |
| Puppet.Skin.PunchArm | src/rendering.rs:891-897 | the arm and sleeve turns shared by both punches |
| Puppet.Skin.ApplyRed | src/rendering.rs:911-919 | a reset, then every part tinted `(255, s, s, 255)` |
| Puppet.Skin.ApplyRedCrouched | src/rendering.rs:921-929 | a crouched reset, then every part tinted |
| Puppet.Skin.RotateAround | src/rendering.rs:931-946 | every part is posed by the same rotation about `pivot` |
| Puppet.SwingMirror | src/rendering.rs:831-855 | mirroring a swing negates its angle |
| Puppet.PunchKeepsFrame | src/rendering.rs:889-898 | a punch keeps every part's base and colour |
| Puppet.FlapsMirror | src/rendering.rs:831-887 | the left flaps are the right flaps with every angle negated, and neither touches head or torso |
| Puppet.PosesForgetHistory | src/rendering.rs:978-982 | reset, crouched reset, punches, `apply_red` and `rotate_around` depend only on bases and colours, never on an earlier pose |
| Puppet.PosesKeepFrame | src/rendering.rs:803-946 | every whole-body pose keeps the bases and colours of all parts |
| Puppet.FlapsKeepFrame | src/rendering.rs:831-887 | the four flaps keep the bases and colours of all parts |
| Puppet.ApplyRedTints | src/rendering.rs:911-929 | `apply_red` keeps the bases and gives every part the tint |
| Puppet.SlimLayout | src/rendering.rs:588-772 | the slim probe changes only the arms: narrower arm patches half a unit closer to the body, narrower sleeves at the regular place |
| Puppet.CrouchedState | src/rendering.rs:774-801 | the closed form of a crouched skin is well formed |
| Puppet.CrouchedLayout | src/rendering.rs:774-801 | crouching a fresh skin moves the head 2 down and 3 forward, torso and arms 1.8 forward, and each sleeve to its limb's x; only head and helmet are re-placed |
| Cameras.OrbitTurns | src/rendering.rs:86-88 | an orbit turns where the camera stands about the origin by the same number of eighths |
| Cameras.OrbitAdds | src/rendering.rs:332-333 | orbits compose by adding their turns, and whole revolutions change nothing |
| Cameras.TranslateMoves | src/rendering.rs:163 | a translation along z keeps the yaw and moves where the camera stands by exactly that much along the world z axis, whichever way the camera looks |
| Cameras.TranslateAdds | src/rendering.rs:163 | translations add up, a zero translation changes nothing, and the opposite translation undoes one |
| Cameras.OrderMatters | src/rendering.rs:332-333 | moving along z and then turning half round leaves the camera `2 dz` from where turning and then moving leaves it: the two moves of the fist camera do not commute |
| Cameras.HalfTurnThenMove | src/rendering.rs:332-333 | half a revolution and then a move of `dz` puts the camera at `dz` along z minus where it stood |
| Cameras.OnTheAxis | src/rendering.rs:332-333 | on the z axis a move changes the place on the axis; after half a revolution the camera stands at the mirrored place and the same move takes it the other way |
| Cameras.Rendering.constructor | src/converting.rs:105-125 | a 204x128 viewport and the canonical camera, 35 units along z looking at the origin |
| Cameras.Rendering.OrbitCamera | src/rendering.rs:86-88 | the camera is orbited |
| Cameras.Rendering.TranslateCamera | src/rendering.rs:163 | the camera is moved along z |
| Cameras.Rendering.ResetCamera | src/converting.rs:155-163 | the camera is back at the canonical position |
| Disks.PictureMapKeys | src/rendering.rs:402-416 | the saved files are exactly the names of the pictures saved |
| Disks.PictureMapLast | src/rendering.rs:402-416 | a file shows the last picture saved under its name |
| Disks.PictureMapSize | src/rendering.rs:402-416 | with distinct names nothing is overwritten: as many files as pictures |
| Disks.Folder.constructor | src/rendering.rs:36-39 | a directory just created is empty |
| Disks.Folder.Save | src/rendering.rs:402-416 | saving adds the file, or replaces the one of the same name, and keeps the name set equal to the saved views |
| Disks.Folder.ReadDir | src/producing.rs:25-28 | the listing names every file once and nothing else |
| Disks.Disk.constructor | src/converting.rs:130 | the temporary directory starts empty |
| Disks.Disk.CreateSubdir | src/rendering.rs:36-39 | `{subdir}{index}` is created empty and fresh, unless it exists, in which case the error carries the context `subdirectory {subdir}{index}` and nothing changes |
| Disks.Disk.OpenSubdir | src/producing.rs:25-28 | reading `{subdir}{index}` gives that directory, or the same context message when it is missing |
| Disks.Disk.OpenDir | src/doom.rs:175-177 | reading a sub-directory by its bare path gives it, or an error without context |
| Sprites.SpritesApart | src/converting.rs:20-34 | the standing, crouched and fist families never share a sprite, and each family is injective in the prefix |
| Sprites.FistSpriteEscape | src/rendering.rs:519 | for a prefix free of `^`, which is every prefix the sprite validation admits, escaping the backslashes of its fist sprite gives the escaped prefix followed by `^`, leaves no backslash, and turning `^` back gives the fist sprite |
| Sprites.ReplaceFree | src/converting.rs:144 | a string without the replaced character is unchanged |
| SkinRenders.SkinOp | src/rendering.rs:54-71 | every frame's pose change of the standing pass keeps the skin well formed |
| SkinRenders.CrouchOp | src/rendering.rs:127-135 | every frame's pose change of the crouched pass keeps the skin well formed |
| SkinRenders.SkinAfter | src/rendering.rs:53-107 | the pose changes of any prefix of the frames keep the skin well formed |
| SkinRenders.FramePictures | src/rendering.rs:73-104 | a rotated frame saves eight pictures, any other frame one |
| SkinRenders.SkinFrame | src/rendering.rs:54-71 | the posed skin is the closed form of that letter: reset, flap right, reset, flap left, punch, red 70, or the death turn about `(0, -11, 0)` |
| SkinRenders.CrouchFrame | src/rendering.rs:127-135 | the crouched letters `A..=G`, with the crouched poses |
| SkinRenders.SaveSkinFrame | src/rendering.rs:374-417 | the folder gains `{sprite}{frame}{rotation}.png` showing the whole skin from the current camera |
| SkinRenders.SaveRotations | src/rendering.rs:75-89 | rotations 1 to 8 are saved with the camera an eighth turn further back each time, and the camera ends where it started |
| SkinRenders.PoseFrame | src/rendering.rs:54-71 | the frame-`n` pose change of either pass |
| SkinRenders.CaptureFrame | src/rendering.rs:73-106 | the pictures of one frame are saved after the earlier ones; skin and camera are unchanged |
| SkinRenders.RenderFrame | src/rendering.rs:53-107 | one loop iteration moves the loop invariant from frame `n` to `n + 1` |
| SkinRenders.RenderFrames | src/rendering.rs:53-107 | after the loop the folder holds all pictures of the pass after those it held, and the camera is back where it was |
| SkinRenders.RenderInto | src/rendering.rs:53-107 | the same into an empty folder |
| SkinRenders.RenderSkin | src/rendering.rs:41-110 | `sprites{index}` is created and holds exactly the standing pass of the freshly loaded skin, or the call fails with the subdirectory context and nothing changes |
| SkinRenders.RenderCrouch | src/rendering.rs:119-151 | the same for `crouch-sprites{index}` and the crouched skin |
| SkinRenders.RenderSkinWithCrouch | src/rendering.rs:112-154 | the standing pass, then the crouched pass; a failure of the second keeps the first directory |
| SkinSchedules.SkinPicturesCount | src/rendering.rs:73-104 | seven frames of eight rotations, then one picture per frame |
| SkinSchedules.FramePicturesNames | src/rendering.rs:414 | the files of a frame carry its letter after the sprite and distinct rotation digits |
| SkinSchedules.SkinPicturesDistinct | src/rendering.rs:414 | no two pictures of a pass share a file name |
| SkinSchedules.JoinFrames | src/rendering.rs:53 | appending a later letter's pictures keeps the names distinct |
| SkinSchedules.SkinDirectorySizes | src/rendering.rs:41-154 | the standing pass leaves 72 files and the crouched pass 56: nothing is overwritten |
| SkinSchedules.SkinOpColors | src/rendering.rs:54-71 | every standing pose change keeps the bases; only `G` changes colours, and it tints every part |
| SkinSchedules.CrouchOpColors | src/rendering.rs:127-135 | the same for the crouched pass |
| SkinSchedules.KeptTint | src/rendering.rs:60-69 | a pose change that keeps colours keeps the pain tint |
| SkinSchedules.SkinAfterColors | src/rendering.rs:53-71 | the parts never move from their bases; frames before `G` keep their colours, and from `G` on, the death frames included, every part has the saturation-70 tint |
| SkinSchedules.DeathSequenceFalls | src/rendering.rs:60-69 | the death angle grows strictly within `H..=N` and within `O..=W`, and both sequences end at 90 degrees |
| SkinSchedules.RotationsSeeAround | src/rendering.rs:75-89 | the eight captures of a rotated frame come from eight different yaws |
| Mugshots.Tint | src/rendering.rs:186-188 | head and helmet both take the colour |
| Mugshots.Tilt | src/rendering.rs:191-193 | head and helmet both take the same single-axis turn about the origin |
| Mugshots.Posed | src/rendering.rs:184-217 | the first dispatch keeps a head-and-helmet pair |
| Mugshots.Pained | src/rendering.rs:231-247 | five captures |
| Mugshots.StatusRow | src/rendering.rs:257-278 | three captures per row |
| Mugshots.StatusRows | src/rendering.rs:253-279 | three captures per row, fifteen for five rows |
| Mugshots.Glancing | src/rendering.rs:282-297 | five captures |
| Mugshots.Captured | src/rendering.rs:219-300 | the captures keep a head-and-helmet pair |
| Mugshots.ColorBust | src/rendering.rs:187-188 | `apply_color` on head and helmet is `Tint` |
| Mugshots.RedBust | src/rendering.rs:234-235 | `apply_red` on both is the tint `(255, s, s, 255)` |
| Mugshots.TiltBust | src/rendering.rs:192-193 | `rotate_around` on both is `Tilt` |
| Mugshots.SaveMugshotFrame | src/rendering.rs:464-507 | the folder gains `{sprite}{suffix}{frame}.png` showing head and helmet |
| Mugshots.PoseBust | src/rendering.rs:184-217 | grey for `DEAD`, -15 degrees about x for `EVL` and `KILL`, gold for `GOD`, +15 for `OUCH`, nothing for `ST`, -30 and +30 about y for `TL` and `TR` |
| Mugshots.CapturePained | src/rendering.rs:231-251 | five captures with saturation `255 / (i + 1)`, then the tilt reset to 0 degrees about x |
| Mugshots.CaptureGlancing | src/rendering.rs:281-298 | five fading captures named `{suffix}{i}0`, pose unchanged |
| Mugshots.CaptureStatusRow | src/rendering.rs:253-279 | one row of status faces: one red, three turns about y |
| Mugshots.CaptureStatus | src/rendering.rs:252-280 | the fifteen status faces, leaving the last red and the last turn |
| Mugshots.CaptureSuffix | src/rendering.rs:219-300 | the second dispatch saves the captures of that kind and leaves the face it specifies |
| Mugshots.RenderSuffix | src/rendering.rs:183-301 | one loop iteration moves the invariant from kind `k` to `k + 1` |
| Mugshots.RenderSuffixes | src/rendering.rs:183-301 | the loop leaves exactly the pictures of all eight kinds |
| Mugshots.RenderMugshot | src/rendering.rs:156-303 | the camera moves 10 units along z, away from the figure (even on failure); `mugshot{index}` is created and holds all faces, or the call fails with the subdirectory context |
| MugshotSchedules.PainedRecolored | src/rendering.rs:231-235 | the fading captures overwrite the colour they start from |
| MugshotSchedules.MugshotStates | src/rendering.rs:183-301 | the face each kind leaves to the next |
| MugshotSchedules.StatusRowsRebased | src/rendering.rs:253-279 | the status faces depend only on the bases of the face they start from |
| MugshotSchedules.FirstKinds | src/rendering.rs:183-251 | the dead, evil, god, kill and ouch captures in closed form |
| MugshotSchedules.MugshotReference | src/rendering.rs:156-303 | the schedule saves exactly the reference faces, in order, free of what each kind leaves behind |
| MugshotSchedules.JoinRising | src/rendering.rs:180 | appending a kind whose two-letter tag is higher keeps the names distinct |
| MugshotSchedules.PainedNames | src/rendering.rs:236-246 | the fading faces of one kind have distinct names carrying the kind |
| MugshotSchedules.GlancingNames | src/rendering.rs:286-296 | likewise for `TL` and `TR` |
| MugshotSchedules.StatusRowNames | src/rendering.rs:267-277 | status face `(x, y)` carries `ST`, then digit `x`, then digit `y` |
| MugshotSchedules.StatusNames | src/rendering.rs:253-279 | the fifteen status faces have distinct names |
| MugshotSchedules.StillName | src/rendering.rs:220-230 | a single capture carries its kind |
| MugshotSchedules.MugshotNames | src/rendering.rs:156-303 | 42 faces with 42 different names |
| MugshotSchedules.MugshotSaved | src/rendering.rs:156-303 | the directory holds 42 files, each showing its reference face: nothing is overwritten |
| MugshotSchedules.StatusRowsAt | src/rendering.rs:253-279 | face `3x + y` of the status faces is column `y` of row `x` |
| MugshotSchedules.DeadAndGodFaces | src/rendering.rs:185-199 | the dead face is grey and unturned; the god face is gold and upright again |
| MugshotSchedules.PainedFaces | src/rendering.rs:190-251 | the evil and kill faces are tilted down and fade from full red; the ouch faces are tilted up |
| MugshotSchedules.StatusFaces | src/rendering.rs:252-280 | status face `ST{x}{y}` has saturation `255 / (x + 1)` and looks right, ahead or left |
| MugshotSchedules.GlancingFaces | src/rendering.rs:206-215 | the `TL` and `TR` faces look 30 degrees left and right and fade |
| MugshotSchedules.FadingReds | src/rendering.rs:233 | the saturation starts at 255, ends at 51 and falls at every step |
| Fists.Swung | src/rendering.rs:356-357 | arm and sleeve take the same pose |
| Fists.FistPictures | src/rendering.rs:336-369 | nine captures |
| Fists.SaveFistFrame | src/rendering.rs:509-552 | the folder gains the frame file, the sprite's backslash written `^`, showing arm and sleeve |
| Fists.RenderFistFrame | src/rendering.rs:337-368 | one iteration keeps arm and sleeve at the shoulder and adds the next frame's picture |
| Fists.RenderFistFrames | src/rendering.rs:336-369 | the loop leaves exactly the nine pictures |
| Fists.RenderFist | src/rendering.rs:305-372 | the camera turns half round and moves 28 units back along z (even on failure); `fist{index}` is created and holds the nine frames, or the call fails with the subdirectory context |
| FistSchedules.FistFileEscaped | src/rendering.rs:519 | for a prefix free of `^`, a frame file is the escaped prefix (as long as the prefix), `^`, the letter and `0.png`, and turning `^` back gives the fist sprite |
| FistSchedules.FistNames | src/rendering.rs:336-369 | nine different files |
| FistSchedules.FistFrames | src/rendering.rs:337-357 | every frame shows arm and sleeve in that frame's pose; the swing is highest at `B`, lowest at `E`, and ends at `C`'s angle |
| FistSchedules.FistCameraBehind | src/rendering.rs:332-333 | the fist camera looks the opposite way and stands where the old camera stood, mirrored through the origin and then moved 28 units along negative z |
| FistSchedules.FistCameraTurnsBack | src/rendering.rs:332 | another half turn restores the yaw the fist camera was made from |
| FistSchedules.FistCameraAfterMugshot | src/rendering.rs:163 | after the mugshot move (the camera at z = 45 units) the fist camera looks back along positive z from z = -73 units |
| Listings.BelowIrreflexive | src/producing.rs:29 | no path sorts before itself |
| Listings.BelowTransitive | src/producing.rs:29 | the string order is transitive |
| Listings.BelowTotal | src/producing.rs:29 | any two different paths are ordered one way or the other |
| Listings.BelowAsymmetric | src/producing.rs:29 | never both ways |
| Listings.BelowCommonPrefix | src/producing.rs:25-29 | full paths under one directory sort as their file names |
| Listings.PairwiseSorted | src/producing.rs:29 | pairwise increasing means strictly sorted |
| Listings.InsertSorted | src/producing.rs:29 | inserting a new path keeps the list strictly sorted and adds exactly that path |
| Listings.SortedUnique | src/producing.rs:25-29 | two strictly sorted lists of the same paths are equal: the sorted listing does not depend on the order `read_dir` produced |
| Listings.SortSetSorted | src/producing.rs:25-29 | the sorted listing of a directory names every file once, in increasing order |
| Listings.SortPaths | src/producing.rs:29 | `paths.sort()` yields a strictly sorted list of the same paths |
| Listings.LastDot | src/producing.rs:42 | the position of the last `.`, or none when there is none |
| Listings.StemPng | src/producing.rs:42 | the stem of `{base}.png` is `base` |
| Producing.Grabbed | src/producing.rs:39-44 | one lump per listed file |
| Producing.Files | src/producing.rs:25-29 | the producers see every sub-directory of the disk |
| Producing.SSkinEscapeKept | src/producing.rs:56-63 | `AB\C` escapes to `AB^C`, whose standing sprite differs from the lump name `push_lump` gives `AB\C]`; for every prefix with a backslash the S_SKIN text of the escaped prefix differs from that of the prefix |
| Producing.SSkinNamesSkinSprites | src/producing.rs:95-99 | for a prefix free of `^`, turning `^` back undoes the escape, and the standing, crouched and mugshot sprites are their own lump names |
| Producing.FistActorEscape | src/producing.rs:136 | `AB\C` gives the actor `AB^C\` where its fist lumps carry `AB\C\`, and so does every prefix with a backslash; for a prefix free of `^` the fist sprite is what `push_lump` reads back from its escaped file name |
| Producing.Wad.NewArchive | src/producing.rs:89-93 | an empty PWAD |
| Producing.Wad.PushLump | src/producing.rs:95-99 | the lump is appended at the back with every `^` in its name turned into `\` |
| Producing.Wad.PushPlain | src/producing.rs:95-99 | a name without `^` is stored as given |
| Producing.Wad.PushPictures | src/producing.rs:39-44 | the sorted files are pushed in order, each named by its stem |
| Producing.Wad.GrabFrom | src/producing.rs:16-46 | when `{subdir}{index}` exists its sorted files are appended as lumps, otherwise the call fails with the subdirectory context and the WAD is unchanged |
| Producing.Wad.PopulateSSkin | src/producing.rs:48-85 | succeeds exactly when the three skin directories exist, and then appends the S_SKIN text, the sprites, the crouch sprites and the mugshots |
| Producing.SSkinWadStep | src/producing.rs:109-111 | one iteration appends the block of skin `index` with name and prefix exchanged |
| Producing.FillSSkinWad | src/producing.rs:108-111 | the loop succeeds exactly when every skin's directories exist, and then holds every skin's block in order, with name and prefix exchanged |
| Producing.ProduceSSkinWad | src/producing.rs:102-114 | one WAD saved under the output path exactly when every directory exists; nothing saved otherwise |
| Producing.SSkinAndFistStep | src/producing.rs:127-139 | one iteration appends the skin's S_SKIN block, its fist pictures and its fist actor |
| Producing.FinishFistWad | src/producing.rs:140-183 | the closing lumps `S_END`, `DECORATE`, `PICKFIST`, `LOADACS`, `A_START`, the compiled `PICKFIST`, `A_END` and `LANGUAGE`, in that order |
| Producing.FillSSkinAndFistWads | src/producing.rs:122-139 | the loop succeeds exactly when every skin and fist directory exists, and then holds every block, every fist group and every fist actor in order |
| Producing.ProduceSSkinAndFistWads | src/producing.rs:116-189 | two WADs, the skins under the output path and the fists under the `-fist.` path, saved exactly when every directory exists |
| Producing.GrabPlayer | src/producing.rs:281-305 | the four groups of one skin, or a failure when one of its directories is missing |
| Producing.FinishDecorateWad | src/producing.rs:311-313 | `S_END`, `DECORATE` and `MAPINFO` appended |
| Producing.DecorateStep | src/producing.rs:201-306 | one iteration appends the player and fist actors, the class entry and the four groups |
| Producing.FillDecorateWad | src/producing.rs:197-306 | the loop succeeds exactly when every directory exists, and then holds all groups, all actors and the class list |
| Producing.ProduceDecorateWad | src/producing.rs:191-317 | one WAD with every skin's pictures between `S_START` and `S_END`, then DECORATE with its last character popped, then MAPINFO, saved exactly when every directory exists |
| WadContents.GrabbedAt | src/producing.rs:39-44 | lump `i` holds sorted file `i` under its stem, `^` turned back into `\` |
| WadContents.SSkinLumpsHead | src/producing.rs:59-65 | a skin's block holds its S_SKIN lump |
| WadContents.SSkinLumpIn | src/producing.rs:127-128 | every skin's S_SKIN lump, with name and prefix in the pair's order, is in the WAD |
| WadContents.SSkinWadSwapped | src/producing.rs:110 | `produce_s_skin_wad` writes the sprite prefix as the skin's name and the name as its sprite, whereas the WAD with fists keeps them in order |
| WadContents.ClassListJoined | src/producing.rs:280 | the class list is the classes joined by `, ` plus a trailing `, ` |
| WadContents.MapInfoJoined | src/producing.rs:199-310 | with skins, the two pops remove exactly the trailing separator; with none, they eat `= ` |
| WadContents.FistWadPathOneDot | src/producing.rs:187 | with one `.` in the output path the fist WAD is the stem followed by `-fist.` and the extension |
| FistLumps.FistFilesSorted | src/producing.rs:29 | for a prefix free of `^`, the fist frame files sort in frame order |
| FistLumps.FistLumpName | src/producing.rs:96 | for a prefix free of `^`, the lump of frame `f` is named the fist sprite, the letter and `0`: the escape of the file name is undone |
| FistLumps.FistGroupLumps | src/producing.rs:129-136 | for a prefix free of `^`, grabbing a fist directory pushes nine lumps, frame `A` first, each named after the fist sprite and its letter |
| Formats.Subdirs | src/converting.rs:54-70 | each render creates only known sub-directories |
| Formats.MethodsFeedProducer | src/converting.rs:54-70 | each format's renders create exactly the directories its producer reads; skins and mugshots always run first; fists run exactly when the producer is not the plain S_SKIN one |
| Formats.MethodsDistinct | src/converting.rs:54-70 | no render of a format runs twice |
| Formats.DirNamesApart | src/rendering.rs:36-39 | two sub-directory names coincide only for the same render name and the same index |
| Formats.RenderDirsKeys | src/rendering.rs:36-39 | one render creates exactly its sub-directories, under the skin's index |
| Formats.SkinContentsKeys | src/converting.rs:145-154 | the directories of one skin are its renders' sub-directories under its index |
| Formats.OtherIndex | src/converting.rs:145-154 | a skin's renders create nothing under another skin's index |
| Formats.RenderedBelow | src/converting.rs:137-164 | the first `n` skins leave no directory with an index of `n` or more |
| Formats.WritesOwner | src/converting.rs:54-70 | a list of renders creates a sub-directory exactly when it holds the render that owns it |
| Formats.RenderedHas | src/converting.rs:137-164 | every directory a skin's renders create is there once the skin is through |
| Formats.RenderedCovers | src/converting.rs:137-173 | the producer finds every directory the renders create, for every skin |
| Formats.RenderedKeeps | src/converting.rs:137-164 | a later skin leaves an earlier skin's directories as they were |
| Formats.RenderedLacks | src/converting.rs:54-70 | a sub-directory no render of the format creates is never there |
| Formats.FormatSkin | src/converting.rs:145-163 | one skin leaves its standing and crouched frames from the canonical camera, its mugshots from that camera moved 10 units further along z, and its fists (when rendered) from behind the mugshot camera |
| Formats.ConvertedSkins | src/converting.rs:128-174 | after the whole loop every skin's directories are as `FormatSkin` gives them, however many skins follow |
| Converting.RecordedAsWritten | src/converting.rs:143-144 | one pair per skin in input order: the name, and the sprite prefix with every backslash written `^`, which turning `^` back gives back exactly |
| Converting.EscapedPrefixMisnames | src/converting.rs:144 | for a prefix with a backslash, the escaped prefix gives an S_SKIN text and a fist sprite other than the prefix itself gives |
| Converting.RecordedNamesSprites | src/producing.rs:95-99 | the pair the model records holds the prefix `push_lump` reads back from the escaped one, and the standing, crouched, mugshot and fist sprites built from it are the names their lumps carry |
| Converting.FilesListing | src/producing.rs:25-29 | the producers list what the directory holds |
| Converting.RunSkinPass | src/converting.rs:145-154 | into a directory without this skin's sprite directories, the skin pass succeeds, restores the camera and adds its two directories |
| Converting.RunMugshotPass | src/converting.rs:145-154 | the mugshot pass succeeds, moves the camera 10 units further along z and adds its directory |
| Converting.RunFistPass | src/converting.rs:145-154 | the fist pass succeeds, turns the camera round and adds its directory |
| Converting.RunRender | src/converting.rs:145-154 | a call through the `Render` table succeeds, leaves the camera `CameraAfter` gives, and adds its directories |
| Converting.PassFresh | src/converting.rs:145-154 | the directories of the next render are not there yet |
| Converting.RenderPass | src/converting.rs:145-154 | one turn of the render loop adds that render's directories from the camera the previous left |
| Converting.RenderPasses | src/converting.rs:145-154 | the renders of one skin all succeed and add their directories in table order |
| Converting.ConvertSkin | src/converting.rs:138-164 | one skin fails exactly when its image cannot be opened; otherwise its directories are added and the camera is back at the canonical position |
| Converting.RenderedFresh | src/converting.rs:138-164 | no directory of the next skin's index is there yet |
| Converting.RenderedNext | src/converting.rs:138-164 | one more skin adds what its renders leave |
| Converting.RenderedPrefix | src/converting.rs:138-164 | the directory after `n` skins depends only on those skins |
| Converting.RunProducer | src/converting.rs:166-171 | a call through the `Produce` table succeeds exactly when its directories exist, and saves what that producer saves |
| Converting.ProduceRendered | src/converting.rs:166-171 | after every skin is rendered the producer succeeds |
| Converting.ConvertStep | src/converting.rs:138-164 | one turn of the skin loop records the skin's name and its sprite prefix as given (the corrected recording, not the `^` escape of line 144) and renders the skin |
| Converting.RenderAll | src/converting.rs:138-164 | the skin loop succeeds exactly when every image opens, and then the directory holds every skin's renders |
| Converting.Convert | src/converting.rs:128-174 | `convert` fails exactly when an image cannot be opened, and otherwise saves what the format's producer makes of the rendered directory and the recorded pairs, each prefix recorded as given (the corrected recording, not the `^` escape of line 144): no render fails and the producer finds every directory |
| Converting.ProduceLoaded | src/converting.rs:166-171 | the producer's call at the end of `convert`, in terms of the input skins |
| Classic.RawFaceTexture | src/minecraft.rs:260-370 | a first-generation face texture is the cropped atlas rectangle as it is, pixel by pixel |
| Classic.RawTexel | src/minecraft.rs:494-572 | a first-generation texel carries the opaque atlas pixel it was made from, unchanged |
| Classic.RawFaceTexel | src/minecraft.rs:494-572 | the same for the texels of one face rectangle |
| Classic.PainFrame | src/minecraft.rs:184-196 | frame `G` puts every part back at its base and colours it `(255, 70, 70, 255)` |
| Classic.RenderImages | src/minecraft.rs:8-92 | the 23 standing frames of the regular-layout skin are saved into `temp` after what it held, and the camera ends where it started |
| Classic.ImagesAdded | src/minecraft.rs:32-89 | `render_images` adds exactly 72 distinct files and keeps those already there |
| Prisms.Layout | src/convert.rs:32-39 | six prisms, each with its net inside a 64x64 atlas |
| Prisms.NewPrismFace | src/convert.rs:128-241 | a face model from the centred corners and the raw cropped texture, no transformation, white |
| Prisms.NewPrismFaces | src/convert.rs:98-105 | front, right, back, left, top and bottom in that order |
| Prisms.Prism.Load | src/convert.rs:95-111 | six faces, base `translation`, and every face placed by that translation |
| Prisms.Prism.Place | src/convert.rs:107-109 | every face gets the placement; face images stay |
| Prisms.Prism.SetTransformation | src/convert.rs:113-117 | every face gets `matrix * transformation`, overwriting the previous pose |
| Prisms.StepPlacements | src/convert.rs:60-61 | six placements per step |
| Prisms.Steps | src/convert.rs:60-81 | eight pictures |
| Prisms.LoadPrisms | src/convert.rs:32-39 | the six prisms of the layout, fresh, each with its own faces |
| Prisms.Step | src/convert.rs:60-81 | step `k` saves the picture from the camera turned `k` eighths about the prisms, then turns it one eighth more |
| Prisms.RunSteps | src/convert.rs:60-81 | eight pictures saved after what `out` held, the camera back where it started after eight eighth turns |
| Prisms.Convert | src/convert.rs:27-84 | fails exactly when the skin cannot be opened, leaving `out` unchanged; otherwise saves the eight steps |
| Prisms.Converted | src/convert.rs:20-22 | eight pictures per skin |
| Prisms.ConvertAll | src/convert.rs:7-25 | from the camera at `(0, 0, 2)` the skins are converted in order until the first one that cannot be opened; it succeeds exactly when every one opens |
| Prisms.StepFiles | src/convert.rs:77 | the eight files are `{name}-{k}.png`, all different |
| Prisms.OnlyTheLegSwings | src/convert.rs:60-61 | only the right leg moves, to the absolute swing of its step, so no two steps show the same figure |
| Prisms.StepsCircle | src/convert.rs:80 | the eight pictures come from eight different yaws, and the eighth turn brings the camera back |
| Prisms.StartsInFront | src/convert.rs:10-15 | the first camera stands at `(0, 0, 2)`, 37 units in front of the prisms, and step `k` sees them from that place turned `k` eighths about `(0, 0, depth)` |
| Prisms.CentredCorners | src/convert.rs:128-241 | a prism face is the limb face of the same patch moved by `center` |
| Prisms.SharedTextureNames | src/convert.rs:128-241 | back, left, top and bottom all name their texture `{name}_2` |
| DoomWads.ReplaceAt | src/doom.rs:34 | `replace_range(k..k + 1, c)` changes character `k` to `c` and nothing else |
| DoomWads.DerivedSprites | src/doom.rs:32-36 | the crouch and fist sprites keep the length and every other character, never coincide, and equal the sprite exactly when its fourth character already was their marker |
| DoomWads.Stems | src/doom.rs:188-193 | one lump per sorted file, named by its stem as it is |
| DoomWads.StemsAgree | src/doom.rs:11-20 | for stems without `^` the two generations push the same lumps |
| DoomWads.Wad.constructor | src/doom.rs:11-20 | a new archive has no lumps |
| DoomWads.Wad.PushLump | src/doom.rs:11-20 | the lump is appended at the back under the name as given |
| DoomWads.Wad.PushPictures | src/doom.rs:188-193 | the sorted files pushed in order by their stems |
| DoomWads.Wad.GrabIntoWad | src/doom.rs:167-196 | when `temp/{subpath}` exists its sorted files are appended by stem; otherwise the call fails and nothing is pushed |
| DoomWads.DecorateNamesApart | src/doom.rs:161 | `DEC_M{index}` differs for different skins |
| DoomWads.GroupsLayout | src/doom.rs:44-46 | the three groups are one picture lump per file, sprites then crouch sprites then mugshots, each with its anchor |
| DoomWads.ConsumedLayout | src/doom.rs:22-54 | skins get S_SKIN and the three groups; players get `DEC_M{index}`, `S_Start`, the same groups, the fists and `S_END` last |
| DoomWads.GenerateSkinsWad | src/doom.rs:56-73 | one S_SKIN lump with name, sprite, crouch sprite and face |
| DoomWads.GeneratePlayersWad | src/doom.rs:75-165 | the player and fist actors under `DEC_M{index}`, then the `S_Start` marker |
| DoomWads.GrabGroups | src/doom.rs:44-46 | succeeds exactly when the three directories exist, then appends the three groups; never removes lumps |
| DoomWads.ConsumeImages | src/doom.rs:22-54 | succeeds exactly when every directory it reads exists, then appends `Consumed`; on failure it keeps what was pushed before |
| FistWads.FistsPictures | src/fists.rs:79-118 | nine captures |
| FistWads.RenderFistsFrame | src/fists.rs:79-117 | one iteration keeps the arm at the shoulder and adds the next frame |
| FistWads.RenderFistsFrames | src/fists.rs:79-117 | the loop saves the nine frames after what the folder held |
| FistWads.LoadArm | src/fists.rs:58-72 | arm and sleeve of the raw atlas at 3.5 units right |
| FistWads.FistsCameraReturns | src/fists.rs:76-77 | the closing moves undo the opening ones: the camera returns to where it started |
| FistWads.FramesAndBack | src/fists.rs:76-116 | the frames from the fist camera, then the camera moved forward and turned round again |
| FistWads.RenderFists | src/fists.rs:34-119 | succeeds exactly when the image opens and `temp/fists` exists; then the camera is restored and the folder holds the nine frames after what it held |
| FistWads.ConsumeFists | src/fists.rs:161-191 | `temp/fists` by sorted stems with the fist anchor, or a failure that pushes nothing |
| FistWads.Convert | src/fists.rs:20-32 | the fist sprite has its fourth character turned into `]`; on success its frames are saved and every picture of `temp/fists` is pushed |
| FistWads.FistsFilesSorted | src/fists.rs:155 | the nine files sort in frame order |
| FistWads.FistsStem | src/fists.rs:183-187 | the stem of a frame file is the sprite, the letter and `0` |
| FistWads.FistsViews | src/fists.rs:79-118 | nine files, each showing arm and sleeve in that frame's pose |
| FistWads.FistsLumps | src/fists.rs:161-191 | an initially empty `fists` gives nine lumps, frame `A` first |
| FistWads.QuotedFist | src/fists.rs:234-235 | turning character 4 of the quoted sprite into `]` is quoting the fist sprite, the same one `convert` uses |
| FistWads.BuildFistActors | src/fists.rs:231-237 | the `code` loop builds actor `Fist_{i + 1}` for every item in order |
| FistWads.LinesApart | src/fists.rs:253-264 | the removal and retrieval lines of different skins differ |
| FistWads.NumberAt | src/fists.rs:254 | a line carrying the number twice grows with its width and has it at a fixed place |
| FistWads.LinesPrefix | src/fists.rs:253-255 | the lines of `1..=m` open those of `1..=n` |
| FistWads.Finalize | src/fists.rs:224-299 | `S_END`, `DECORATE`, `LANGUAGE`, `LOADACS`, `A_START`, the compiled `PICKFIST`, `A_END`, in that order |
| FistWads.FinishedLayout | src/fists.rs:231-265 | item `k` has actor `Fist_{k + 1}` and script line `k + 1` right after those of the items before it |
| FistWads.ActorsPrefix | src/fists.rs:231-237 | the actors of the first `m` items open the actors of all |
| Prompts.FieldCycle | src/main.rs:306-326 | retreating undoes advancing and the reverse; four steps either way come back; no step stays put |
| Prompts.ValidateSprite | src/main.rs:628-635 | accepts exactly the strings whose every character is an ASCII letter, `[`, `]` or `\` |
| Prompts.SpriteWidth | src/main.rs:354 | for sprite characters the byte length checked is the character count |
| Prompts.FieldRules | src/main.rs:328-378 | a name is accepted exactly when not empty, a path when it ends in `.png` and exists, a sprite when it has four and a mugshot three sprite characters |
| Prompts.FieldMessages | src/main.rs:333-370 | a refusal always carries a message |
| Prompts.UpperSprite | src/main.rs:384-385 | upper-casing keeps a valid sprite valid and of the same length, changes only lower-case letters, and leaves the fourth character replaceable |
| Prompts.ItemPrompt.Add | src/main.rs:270-275 | empty fields, the name focused, nothing to replace |
| Prompts.ItemPrompt.Edit | src/main.rs:277-295 | the item's values, every field done, the name focused, the index to replace; a valid item gives a consistent prompt |
| Prompts.ItemPrompt.AdvanceField | src/main.rs:306-315 | the focus moves to the next field; values, statuses and errors stay; consistency is kept |
| Prompts.ItemPrompt.RetreatField | src/main.rs:317-326 | the focus moves to the previous field, likewise |
| Prompts.ItemPrompt.ValidateField | src/main.rs:328-378 | the current field becomes done exactly when its rule accepts the value, else aborted with the rule's message; other fields are untouched |
| Prompts.ItemPrompt.SubmittedOk | src/main.rs:380-386 | a consistent prompt with every field done submits a valid item whose path ends in `.png` and whose sprite can take the WAD assembly's replacement |
| Prompts.ItemPrompt.Submit | src/main.rs:380-392 | the edited row is replaced, or the item appended |
| Prompts.ItemPrompt.HandleKey | src/main.rs:217-240 | Tab and BackTab move the focus, Esc closes, Enter submits and closes once every field is done, other keys edit and validate the current field; consistency is kept |
| Prompts.SubmitKeepsItems | src/main.rs:387-391 | submitting a valid item keeps every item valid; an edit touches only its row, an addition only grows the list |
| Prompts.MainActions | src/main.rs:60-87 | only a pressed key acts; only `d` removes, and only the selected row; `e` edits the selected row; Enter opens the WAD prompt exactly when there are items; `q` and Esc ask to quit |
| Prompts.RemoveRow | src/main.rs:60-87 | removing a row keeps the rows before and moves those after up by one |
| Prompts.App.constructor | src/main.rs:577-582 | no items, nothing open, not quitting |
| Prompts.App.HandleMainKey | src/main.rs:60-87 | the action of the key event on the items and on what is open, nothing for a repeat or a release; item validity is kept |
| Prompts.App.HandleQuitKey | src/main.rs:176-187 | on a pressed key `y` or Esc quits, `n` or Down closes the question, other keys leave it open; repeats and releases change nothing |
| Prompts.App.HandleSuccessKey | src/main.rs:523-528 | any key event quits, whatever its kind |
| Prompts.FistsAnswers | src/main.rs:465-484 | only `y` names a fist WAD, the WAD named is always the one typed, and only Esc closes the question |
| Prompts.ConvertPrompt.constructor | src/main.rs:400-407 | empty and focused |
| Prompts.ConvertPrompt.Validate | src/main.rs:506-514 | done exactly when the name ends in `.wad`, with the error line empty exactly then |
| Prompts.ConvertPrompt.HandleKey | src/main.rs:410-440 | Esc closes; Enter on a validated name asks about fists when a compiler was found and otherwise ends; a name that is not yet valid keeps the prompt; other keys edit and validate; every ending names a `.wad` |
| Prompts.NewWithFists | src/main.rs:568-573 | the WAD named, and a fist WAD |
| Prompts.FistsFileName | src/main.rs:571 | for a name with one dot, the fist WAD is the stem, `_fists` and the extension, and differs from the WAD |

## Left out

- GPU rendering, rasterisation, lighting and the pixel contents of saved pictures: a saved picture records the camera and the posed parts it shows, not its pixels.
- Floating-point matrices and angles: poses are symbolic (pivot and turns), angles exact fractions of degrees, lengths tenths of a unit.
- `Face::correct_gamma` (a `powf` curve): the gamma correction is a `byte -> byte` parameter of the loaders; the first generations pass the identity.
- Image decoding: an opened image is an `Atlas` from a map of paths; `image::open` fails exactly when the path is not in the map.
- Puppet.Skin.Load, Puppet.Skin.LoadClassic and every render: require an atlas of at least 64x64, and Puppet.Limb.Load and Puppet.Trim.Load an atlas holding the whole net of their patch; a smaller image makes `get_pixel` panic in the program, which is not modelled.
- SkinRenders.RenderSkin, SkinRenders.RenderCrouch, Mugshots.RenderMugshot, Fists.RenderFist, Classic.RenderImages, Prisms.Convert: a failing `three_d_asset::io::save` (disk full, permissions) is not modelled; only the failure of creating an existing sub-directory, or of a missing directory, is.
- Classic.RenderImages: takes the opened atlas; the failure of `image::open` in `render_images` is not modelled there.
- Producing.Wad.GrabFrom, DoomWads.Wad.GrabIntoWad, FistWads.ConsumeFists: the PNG chunk edits of `putpng::grab::grab_all` and `putpng::crop::crop_all` (CRC, cropping) are recorded as the anchor only, their `unwrap` panics and a failing `std::fs::read` are not modelled.
- `tinywad`'s binary WAD encoding and `Wad::save`: a saved WAD is its path and its lump sequence.
- The DECORATE actor texts, the fist weapon actor, the `PickFist` ACS sources and what `acc` compiles from them are opaque functions (`Producing.Templates`, `DoomWads.Texts`); the S_SKIN and MAPINFO texts and the removal and retrieval lines are spelled out.
- `get_acc` (`src/converting.rs` and `src/fists.rs`), the `acc` process and the scratch files `pick-fist.acs`, `pick-fist.o`, `PICKFIST.acs`, `PICKFIST.o`: the compiler's presence is the `hasAcc` parameter of the front end, its output a template value.
- The order of `std::fs::read_dir`: any order; every producer sorts the paths before use, and the sorted listing is proved independent of it.
- Prompts.App.HandleMainKey: requires the selected row to lie inside the item list; the program indexes the list with it and would panic otherwise. Moving the selection (`j`, `k`, Up, Down) and the table state are not modelled: the selection is a parameter.
- Prompts.ItemPrompt.HandleKey, Prompts.ConvertPrompt.HandleKey: the text editing of `tui_prompts` (cursor, deletion, insertion) is not modelled; the edited value is the `typed` parameter.
- Prompts.Problem: whether a path exists is the `onDisk` parameter, and `Prompts.Sound` does not remember it, since the file system can change after validation.
- Common.ToUpper: upper-cases ASCII letters only; `str::to_uppercase` also maps other alphabets, which a valid sprite cannot contain.
- DoomWads.ReplaceAt: requires the first characters up to the replaced one to be ASCII; `replace_range` panics on a byte index inside a character, which is not modelled.
- The drawing of the terminal UI, the event loop of `App::run`, themes and popups.
- `convert_all` as the front end calls it (items, WAD name, compiler path) is not part of this model; the model covers the `convert_all` of `src/convert.rs` (`Prisms.ConvertAll`).
- Cameras.Orbit, Prisms.Circled: the angle arguments of `three_d`'s `rotate_around` and `rotate_around_with_fixed_up` are read as the radians passed (`PI` a half turn, `PI / 4` an eighth); how the library itself turns those arguments into a motion is not part of this model.
- The perspective parameters of every camera (up vector, field of view, near and far planes) never change and are not represented; a camera is its yaw and its place.
- Converting.Convert, Converting.ConvertStep: record each sprite prefix as given, the corrected recording; `convert` (src/converting.rs:144) writes every `\` of it as `^`, which Converting.RecordedAsWritten models and Converting.EscapedPrefixMisnames shows misnames the S_SKIN and fist sprites (see "Findings").
- Producing.PlayerActor: the player actor template is opaque; like the fist actor it is handed the prefix recorded by `convert`, which the model records as given (see "Findings").
- Concurrency: none in the program; the GPU context is a single `Rendering` object.

## Findings

| source | as written | input that shows it | evidently intended | confidence | as-written member | corrected member |
|---|---|---|---|---|---|---|
| src/converting.rs:144 | each recorded sprite prefix has every `\` written `^`; `populate_s_skin` (src/producing.rs:56-63) and `generate_fist_decorate` (src/producing.rs:136) write that prefix into the S_SKIN and DECORATE texts as it is, while `push_lump` (src/producing.rs:95-99) turns `^` back into `\` only in lump names | sprite prefix `AB\C`, which `validate_sprite` (src/main.rs:628-635) accepts: the standing frames become lumps `AB\C]…`, the S_SKIN text says `sprite = AB^C]`, and the fist actor is handed `AB^C\` while its lumps are `AB\C\…` | the texts name the sprites the lumps carry; the escape is needed only in the fist file names (src/rendering.rs:519) | medium, not executed | Converting.RecordedAsWritten, Converting.EscapedPrefixMisnames | Converting.RecordedNamesSprites |
