# Verified models of the graphics back ends

Dafny models of the parts of the OpenGL, Direct3D 11 and Metal back ends that hold real algorithms,
with proofs over every input, every run or every reachable state. The driver is an abstract state:
bound objects, buffer contents, a command queue. Imperative code is modelled by classes and loops
that are proved against specification functions; the theorems are about those functions.

| files | component |
|---|---|
| `Wrappers` | the option type |
| `ShaderTokens`, `GlslWriter` | the token rewriter from the HLSL-like language to GLSL, with its one shared cursor |
| `TokenTrees`, `WriterCorrectness` | token trees, and that the rewriter translates every one of them |
| `ShaderExpr`, `Translation`, `TranslationSoundness` | expressions, a GLSL expression parser, and the translated text |
| `PlainTokens`, `SamplerBindings` | what is copied token by token, and the sampler each texture ends up with |
| `ShaderMeaning`, `ShaderValues` | values in both languages, the translator theorem, and two carriers: reals, and scalars with vectors and matrices |
| `SinCosMeaning`, `ShaderSamplers` | the statement `sincos`, and the translator theorem with its samplers |
| `ParenArguments`, `ParenTexts` | the two shapes of argument that are read wrongly, and when the text is still right |
| `StorageStructs`, `StageLinkage` | the two flattenings of stage structs and their numbering |
| `TextReplace`, `StageNames`, `StageCollisions` | the textual replacement of names, linkage by the names that are left in the shader, and when two of them coincide |
| `ConstantBuffer`, `RegisterRule` | packing, serialization and upload of Direct3D 11 constants, and the shader compiler's rule for arrays |
| `MetalOrdering`, `MetalCommands` | deferred and immediate command buffers of the Metal device |
| `ProgramCache`, `ProgramList` | the OpenGL program cache, as a model with address reuse and as an intrusive list |
| `SamplerRefs` | reference counts of OpenGL samplers |
| `LazyState`, `PipelineState`, `DeviceLoss`, `RenderTargets`, `InputSlots` | Direct3D 11 pipeline state, device loss, output views and vertex input |
| `UsageAnalysis`, `UsageTranspiler`, `ArgumentOrder` | what a Metal shader function must be given, as closure over the call graph, and in which order |
| `UniformImage` | offsets and byte image of Metal uniforms |
| `ModifierFilter` | the in-place filter over DMA-BUF modifiers |

## Where the code falls short

Each of these is proved. Where the code does what it is for only under a condition, the condition is
proved to be exact unless "Left out" says otherwise:

- An argument that its call closes with `)` and that opens with `(` ends the call early:
  `mul(x, (y) + z)` becomes `x * y + z`. The cursor ends on the call's own closer if and only if the
  argument does not open with a bracket; over the reals the two values agree if and only if `x == 1`
  or `z == 0` (`ParenArguments.LastArgumentStops`, `ParenArguments.WrongUnless`). In a loop that does
  not end on `)` the rest is copied, and the text is right if and only if nothing but whitespace
  follows the bracket for `mul` and `mad`, always for a sampling call, and never for `sincos`
  (`ParenTexts.BracketCopied`, `ParenTexts.TextRightIff`).
- A middle argument of `mad` or `sincos` that opens with a bracket holding a bare comma, as in
  `mad(a, (b, d), c)`, is cut at that comma, and only such a one (`ParenArguments.MiddleArgumentStops`).
- The writer copies `*`, which is componentwise on matrices in the source language and the linear
  product in GLSL: on two operands the values agree if and only if the two products do
  (`ShaderMeaning.StarIsCopied`, `ShaderValues.MatrixStarDiffers`).
- The writer turns `mul` into `*`. On two vectors `mul` is the dot product and GLSL's `*` is
  componentwise: a number becomes a vector. The values agree if and only if the linear product of the
  operands is GLSL's (`ShaderMeaning.MulIsStar`, `ShaderValues.VectorMulDiffers`).
- Matrix constructors are renamed with their arguments in place, but the source language fills rows
  and GLSL columns: a `float3x3` built from nine numbers keeps its value if and only if it is
  symmetric (`ShaderMeaning.ConstructorIsRenamed`, `ShaderValues.ConstructorTransposes`).
- GLSL has one sampler per texture, and the writer keeps the one named last: of two calls that sample a
  texture through different samplers the first gets the second one's. A call samples through the
  sampler it names if and only if the last call for its texture names the same one
  (`SamplerBindings.OwnSamplerIff`, `SamplerBindings.TwoSamplers`).
- `fmod` becomes `mod`; the two agree exactly as stated by `ShaderValues.FmodIsMod`.
- A failed `Map` leaves the changed marks cleared, so the next upload reports success and keeps the
  old bytes, and so does every later one until some value changes (`ConstantBuffer.UploadSound`,
  `ConstantBuffer.StaleUntilChange`, `ConstantBuffer.StaleBuffer`).
- Constants are packed with every array as one block, while the shader compiler starts each array and
  each of its elements on a register. All constants and elements stand where the compiler expects
  them if and only if no array has several elements smaller than a register and every array comes to
  start a register by itself (`RegisterRule.LayoutAgreesIff`, `RegisterRule.PositionsAgreeIff`,
  `RegisterRule.FloatThenArray`); without arrays they always do (`RegisterRule.NoArraysAgree`).
- `copyTexture` does not mark its destination, so a stage of that destination can overtake the copy
  (`MetalOrdering.CopyThenStage`). From a state in which queue order and issue order agree,
  `MetalOrdering.StageReadsCurrent` says exactly when a stage reads the current contents.
- `stageBufferToTexture`, and a stage or region copy into a texture, commit at once and overtake
  deferred writes and reads of their destination: after a draw to a texture, a buffer staged into it
  is overwritten by the older draw (`MetalOrdering.DrawThenUploadThenStage`). From a state in which
  both orders agree, the destination is right if and only if nothing that stays deferred writes the
  destination or the source (`MetalOrdering.ImmediateWriteLands`); a deferred reader of the
  destination reads the newer contents (`MetalOrdering.OvertakenReadDiffers`).
- Destroying a loaded OpenGL shader leaves it current; a draw then links a dead shader, and a new
  shader at the same address hits the stale program (`ProgramCache.StaleHit`). That draw links only if
  the driver has handed out the deleted shader object's name again. Every other step keeps the cache
  sound (`ProgramCache.NextKeepsInv`).
- A failed swap-chain resize unbinds the outputs without raising the invalidate flag
  (`RenderTargets.NextKeepsUpToDate`, `RenderTargets.FailedResizeUnnoticed`).
- Metal usage analysis sees only calls to functions declared no later than the caller
  (`UsageAnalysis.UsageIsClosure`, `UsageAnalysis.ForwardCallOutOfScope`).
- A call passes textures and samplers in the order in which the callee first uses them, the signature
  takes them in the order of declaration, and Metal binds by position. The two lists are the same if
  and only if the first uses come in declaration order (`ArgumentOrder.CallBindsByPosition`); with two
  textures used the other way round each is bound to the other's parameter
  (`ArgumentOrder.TexturesSwapped`).
- Only the first parameter of `main` is transferred (`StageLinkage.AllInputsRead`); a vertex shader
  whose plain result is a position assigns an undeclared variable (`StageLinkage.PlainResultDeclared`);
  a struct with a vertex-id member does not link (`StageLinkage.StagesLink`).
- Stage variables are renamed by replacing text, so a member such as `uv2` after `uv` ends as
  `_input_attrib02` while the program looks up `_input_attrib1`. The name is right exactly as stated by
  `StageNames.NameExact`; the two stages still agree with each other (`StageNames.StagesLinkInText`).
  Two variables of one stage end under the same text exactly when one number with the rest of a name
  behind it spells a longer number (`StageCollisions.SameTextIff`), as with twelve members where both
  the second, extended by "0", and the eleventh become `_input_attrib10`
  (`StageCollisions.ElevenMembersCollide`).
- A uniform without alignment resets the Metal layout: one of string or unknown type to offset 0, and a
  texture of a vertex shader, which is laid out like a value there, to offset 16. Values are then
  disjoint and inside the buffer exactly when no reset that takes effect goes back to before the end of
  a value already placed (`UniformImage.SoundIff`): in fragment shaders, when no untyped uniform stands
  after a value (`UniformImage.FragmentSane`), in vertex shaders without untyped uniforms, when every
  value before a texture ends by byte 16 (`UniformImage.VertexSane`). A float before a string has no
  room (`UniformImage.StringLast`), and neither has a matrix before a texture in a vertex shader
  (`UniformImage.MatrixThenTexture`).
- Metal uniforms take values of any size, and offsets ignore array counts, so an array set at its full
  size runs into later slots or off the end of the image (`UniformImage.Shader.UpdateUniform`). A later
  value still stands afterwards if and only if the write stops before it or brings the same bytes
  (`UniformImage.SpillIff`, `UniformImage.ArraySpills`).
- Releasing a Direct3D 11 3D texture keeps its linear view (`DeviceLoss.Device.ReleaseAll`).

## Model

| member | source | states |
|---|---|---|
| ShaderTokens.SkipRun | libobs/util/cf-parser.h:96-106 | the cursor step skips exactly a run of whitespace and stops on the first other token |
| GlslWriter.Writer.NextToken | libobs/util/cf-parser.h:96-106 | advances to the next token that is not whitespace, false at the end of the stream |
| GlslWriter.Writer.WriteContents | libobs-opengl/gl-shaderparser.c:492-523 | the emitted text, sampler bindings and counter are the specified ones, and the returned cursor is where the delimiter stands, whatever nested handlers did to the shared cursor |
| GlslWriter.Writer.WriteIntrinsic | libobs-opengl/gl-shaderparser.c:451-490 | every intrinsic is dispatched to its handler or renamed, and declined names change nothing but what the handler emitted |
| GlslWriter.Writer.WriteMul | libobs-opengl/gl-shaderparser.c:295-314 | product text and final cursor, or nothing when no bracket follows |
| GlslWriter.Writer.WriteMad | libobs-opengl/gl-shaderparser.c:271-293 | product-sum text and final cursor |
| GlslWriter.Writer.WriteSaturate | libobs-opengl/gl-shaderparser.c:360-376 | clamp text and final cursor |
| GlslWriter.Writer.WriteSinCos | libobs-opengl/gl-shaderparser.c:316-358 | one numbered temporary and two assignments; when tokens run out it declines but keeps the text |
| GlslWriter.Writer.WriteTextureCode | libobs-opengl/gl-shaderparser.c:410-449 | the sampling call for the texture's type and method, with the named sampler recorded for the texture (see SamplerBindings.LoopBinds) |
| WriterCorrectness.LoopItems | libobs-opengl/gl-shaderparser.c:492-523 | for every token tree and any whitespace the loop consumes exactly the tree and emits exactly its translation |
| WriterCorrectness.MulStep | libobs-opengl/gl-shaderparser.c:295-314 | a product at any depth: text of both translated arguments, cursor on the call's closer |
| WriterCorrectness.MadStep | libobs-opengl/gl-shaderparser.c:271-293 | the same for mad; its middle argument may open with a bracket |
| WriterCorrectness.SaturateStep | libobs-opengl/gl-shaderparser.c:360-376 | the same for saturate, whose argument may open with a bracket |
| WriterCorrectness.SinCosStep | libobs-opengl/gl-shaderparser.c:316-358 | the same for sincos, with the counter of its temporary |
| WriterCorrectness.SamplingStep | libobs-opengl/gl-shaderparser.c:378-449 | the same for every sampling method, with or without a sampler argument |
| WriterCorrectness.MidArg | libobs-opengl/gl-shaderparser.c:492-523 | an argument read up to a comma may open with a bracket and is still read to its end |
| WriterCorrectness.FunctionBody | libobs-opengl/gl-shaderparser.c:525-553 | a whole body: the translation of the tree, stopping on the matching brace |
| WriterCorrectness.DeclinedCopied | libobs-opengl/gl-shaderparser.c:451-490 | a handled function that is not called and a texture that is not sampled are copied as they are |
| PlainTokens.CopiesPlain | libobs-opengl/gl-shaderparser.c:492-523 | a tree without handled calls comes out token by token with brackets and whitespace in place, only names under GLSL's name for them |
| PlainTokens.LoopCopies | libobs-opengl/gl-shaderparser.c:492-523 | so the loop appends exactly these tokens |
| SamplerBindings.LoopBinds | libobs-opengl/gl-shaderparser.c:378-408 | after any tree each texture has the sampler named in the last sampling call that names one, as the first declared of that name, and all other textures keep theirs |
| SamplerBindings.OwnSamplerIff | libobs-opengl/gl-shaderparser.c:378-408 | a call samples through the sampler it names exactly if the last call for its texture names the same one |
| SamplerBindings.TwoSamplers | libobs-opengl/gl-shaderparser.c:378-408 | a texture sampled through two samplers: the first call gets the second one's |
| ShaderExpr.ParseInverts | libobs-opengl/gl-shaderparser.c:492-523 | a precedence parser for GLSL expressions reads every printed expression back |
| ShaderExpr.UniqueReading | libobs-opengl/gl-shaderparser.c:492-523 | the printed text of an expression denotes that expression and no other |
| Translation.FlattenWf | libobs-opengl/gl-shaderparser.c:492-523 | every source expression prints as a token tree the writer handles |
| TranslationSoundness.WriteExpr | libobs-opengl/gl-shaderparser.c:271-523 | the text emitted for an expression is the printing of the translated expression |
| TranslationSoundness.WhitespaceIrrelevant | libobs-opengl/gl-shaderparser.c:492-523 | whitespace in the source changes the output only by whitespace |
| ShaderMeaning.SameValue | libobs-opengl/gl-shaderparser.c:246-490 | the translated expression has the source's value, over any interpretation of both languages, if on the operands the componentwise product at each `*` and `mad` and the linear product at each `mul` is GLSL's, the remainders at each `fmod` and the constructors at each matrix type agree, and each sampled texture has the sampler named |
| ShaderMeaning.HarmlessAgrees | libobs-opengl/gl-shaderparser.c:246-314 | they do when no factor of a `*` or `mad` is a matrix, no `mul` has two vectors, no matrix is built from its entries, fmod is not called and textures have their samplers |
| ShaderMeaning.TypeNameIff | libobs-opengl/gl-shaderparser.c:53-95 | the writer replaces exactly the vector, matrix and texture type names, and every vector type by GLSL's type of that base and size |
| ShaderMeaning.RenamedCall | libobs-opengl/gl-shaderparser.c:451-490 | functions that GLSL has under another name, and vector constructors, keep the source's own meaning |
| ShaderMeaning.SampleValue | libobs-opengl/gl-shaderparser.c:378-449 | every sampling method, and loading by the texture's type, keeps the source's own meaning |
| ShaderMeaning.StarIsCopied | libobs-opengl/gl-shaderparser.c:492-523 | for a copied `*` the values agree exactly when the componentwise product is GLSL's |
| ShaderMeaning.MulIsStar | libobs-opengl/gl-shaderparser.c:295-314 | for a `mul` written as `*` the values agree exactly when the linear product is GLSL's |
| ShaderMeaning.ConstructorIsRenamed | libobs-opengl/gl-shaderparser.c:53-95 | for a constructor with agreeing arguments the values agree exactly when the two constructors do |
| ShaderValues.LerpIsMix | libobs-opengl/gl-shaderparser.c:451-490 | renaming lerp to mix keeps its value |
| ShaderValues.FmodIsMod | libobs-opengl/gl-shaderparser.c:246-270 | exactly when the documented inexact rename of fmod to mod keeps the value |
| ShaderMeaning.TranslatorCorrect | libobs-opengl/gl-shaderparser.c:271-523 | wherever an expression stands, the loop appends a text with one reading, and where the languages agree on its operations that reading has the source's value |
| ShaderSamplers.SamplersFound | libobs-opengl/gl-shaderparser.c:378-408 | if each texture is sampled through one sampler and the program puts in the recorded ones, every call finds its own |
| ShaderSamplers.HarmlessTranslated | libobs-opengl/gl-shaderparser.c:271-523 | the theorem end to end: a harmless expression that samples each texture through one sampler, wherever it stands, becomes a text with one reading that has the source's value |
| SinCosMeaning.StmtsInvert | libobs-opengl/gl-shaderparser.c:316-358 | statements are read back from their text |
| SinCosMeaning.SinCosCorrect | libobs-opengl/gl-shaderparser.c:316-358 | sincos of any source expression becomes statements with one reading, and running them gives every variable but the temporary the value the source gives it |
| ShaderValues.RealsAreStandard | libobs-opengl/gl-shaderparser.c:246-270 | over the reals the renamed functions and the products satisfy what the theorem assumes |
| ShaderValues.MatricesAreStandard | libobs-opengl/gl-shaderparser.c:246-270 | so they do over scalars, vectors and matrices, with the products and matrix constructors of the two languages |
| ShaderValues.MatrixStarDiffers | libobs-opengl/gl-shaderparser.c:492-523 | a matrix whose `*` with itself changes its value in translation |
| ShaderValues.VectorMulDiffers | libobs-opengl/gl-shaderparser.c:295-314 | `mul` of any two vectors changes its value in translation |
| ShaderValues.ConstructorTransposes | libobs-opengl/gl-shaderparser.c:53-95 | a matrix written out entry by entry keeps its value exactly when it is symmetric |
| ParenArguments.LastArgumentStops | libobs-opengl/gl-shaderparser.c:492-497 | a last argument is read to the call's closer if and only if it does not open with a bracket |
| ParenArguments.MiddleArgumentStops | libobs-opengl/gl-shaderparser.c:271-293 | an argument between commas is read to its own comma if and only if it does not open with a bracket holding a bare comma; otherwise to that one |
| ParenArguments.MulOnParen | libobs-opengl/gl-shaderparser.c:295-314 | what the product handler emits and where it stops on an argument that opens with a bracket |
| ParenArguments.WrongText | libobs-opengl/gl-shaderparser.c:295-314 | the whole text emitted for such a product |
| ParenArguments.WrongValue | libobs-opengl/gl-shaderparser.c:295-314 | its value, with GLSL's product, and the intended value, with the linear one, over any carrier |
| ParenArguments.WrongUnless | libobs-opengl/gl-shaderparser.c:295-314 | over the reals, exactly when they agree |
| ParenTexts.PrefixKept | libobs-opengl/gl-shaderparser.c:271-523 | what is written for a tree does not depend on the text before it |
| ParenTexts.CallStops | libobs-opengl/gl-shaderparser.c:271-449 | a call whose last argument opens with a bracket: every handler stops on that bracket's closer with its own tail written |
| ParenTexts.BracketCopied | libobs-opengl/gl-shaderparser.c:492-523 | a loop that does not end on `)` then copies the rest of the argument and the call's closer |
| ParenTexts.TextRightIff | libobs-opengl/gl-shaderparser.c:271-523 | exactly when the text that comes out is the right one: for mul and mad if nothing follows the bracket, for sampling calls always, for sincos never |
| StorageStructs.DeclareIsLeaves | libobs-opengl/gl-shaderparser.c:135-189 | the declarations are those of the surviving leaves, in order, named by path |
| StorageStructs.TransferIsLeaves | libobs-opengl/gl-shaderparser.c:564-631 | the generated assignments are one per leaf, in order |
| StorageStructs.InputsAgree | libobs-opengl/gl-shaderparser.c:135-209 | main reads exactly the declared inputs of a parameter, in order |
| StorageStructs.OutputsAgree | libobs-opengl/gl-shaderparser.c:564-649 | main writes exactly the declared outputs of the result, in order |
| StorageStructs.LeafServed | libobs-opengl/gl-shaderparser.c:564-631 | each leaf is served once, from its variable or from gl_VertexID, gl_FragCoord or into gl_Position |
| StorageStructs.LeafServedText | libobs-opengl/gl-shaderparser.c:564-631 | the text on both sides of each leaf's assignment: dots in the struct, underscores in the stage variable, built-ins by mapping |
| StageLinkage.Writer.WriteStorageVar | libobs-opengl/gl-shaderparser.c:155-189 | appends exactly the declarations of the flattening |
| StageLinkage.Writer.UnwrapStorageStruct | libobs-opengl/gl-shaderparser.c:135-153 | the same for a struct's members under the longer prefix |
| StageLinkage.Writer.WriteMainStorageAssign | libobs-opengl/gl-shaderparser.c:576-631 | appends exactly the assignments of the second flattening |
| StageLinkage.Writer.RenameAttributes | libobs-opengl/gl-shaderparser.c:696-718 | every attribute is renamed to its prefix and the number of earlier attributes going the same way, and every identifier of the shader goes through all the replacements in order |
| StageLinkage.NumbersFollowOrder | libobs-opengl/gl-shaderparser.c:696-718 | inputs and outputs are each numbered from zero in order of declaration |
| StageLinkage.StagesLink | libobs-opengl/gl-shaderparser.h:57-74 | k-th vertex output and k-th pixel input have the same type and are given the same number, exactly when the struct has no vertex-id member |
| StageLinkage.AllInputsRead | libobs-opengl/gl-shaderparser.c:633-636 | all declared inputs are read exactly when parameters after the first declare none |
| StageLinkage.PlainResultDeclared | libobs-opengl/gl-shaderparser.c:199-209 | a plain result is declared exactly when it is not a vertex position |
| TextReplace.FinalText | libobs-opengl/gl-shaderparser.c:696-718 | an identifier ends as the numbered name of the first attribute it begins with, followed by its tail |
| TextReplace.RenamedExactly | libobs-opengl/gl-shaderparser.c:696-718 | exactly when that is its own numbered name |
| TextReplace.JoinReplaced | libobs-opengl/gl-shaderparser.c:696-718 | every occurrence is replaced: pieces joined by a name become the same pieces joined by its replacement |
| TextReplace.DecimalInjective | libobs-opengl/gl-shaderparser.c:710-715 | different numbers are spelled differently |
| StageNames.ShaderRenaming | libobs-opengl/gl-shaderparser.c:135-209 | the flattened names of every shader whose members are free of the two stems, and the numbered names, are as FinalText needs them |
| StageNames.NumberedTexts | libobs-opengl/gl-shaderparser.c:696-718 | the numbered names of both stages in full |
| StageNames.NameExact | libobs-opengl/gl-shaderparser.c:696-718 | for every such shader the final text of each stage variable, and exactly when it is the name the attribute list holds |
| StageNames.ExtendedMember | libobs-opengl/gl-shaderparser.c:696-718 | a member whose name extends the one before it is declared under the wrong name, for all such names |
| StageNames.UvAndUv2 | libobs-opengl/gl-shader.c:533-545 | members uv and uv2: declared as _input_attrib02, looked up as _input_attrib1 |
| StageNames.StagesLinkInText | libobs-opengl/gl-shaderparser.c:696-718 | the final texts of the k-th vertex output and the k-th pixel input of one struct are equal, right or wrong |
| StageCollisions.SameTextIff | libobs-opengl/gl-shaderparser.c:696-718 | two differently named variables of a stage end under one text exactly when one number and tail spell the other |
| StageCollisions.DistinctTexts | libobs-opengl/gl-shaderparser.c:696-718 | if no name goes on with a digit where an earlier one ends, texts are equal exactly when names are |
| StageCollisions.ElevenMembersCollide | libobs-opengl/gl-shaderparser.c:696-718 | twelve members of which two are declared as the same variable |
| ConstantBuffer.PlaceIsLegal | libobs-d3d11/d3d11-shader.cpp:114-182 | a placed constant obeys the register rule |
| ConstantBuffer.PlaceIsLeast | libobs-d3d11/d3d11-shader.cpp:114-182 | and no smaller offset would |
| ConstantBuffer.PackingSound | libobs-d3d11/d3d11-shader.cpp:137-182 | slots are legal, least, increasing, disjoint and inside the buffer |
| RegisterRule.PositionsAgreeIff | libobs-d3d11/d3d11-shader.cpp:114-182 | every constant starts where the compiler's rule puts it exactly when each array comes to start a register, and no array is packed too tightly unless the gap closes before the next constant |
| RegisterRule.LayoutAgreesIff | libobs-d3d11/d3d11-shader.cpp:114-182 | the same with every array element: exactly when no array is packed too tightly and each comes to start a register |
| RegisterRule.NoArraysAgree | libobs-d3d11/d3d11-shader.cpp:114-182 | without arrays all positions are the compiler's |
| RegisterRule.FloatThenArray | libobs-d3d11/d3d11-shader.cpp:114-182 | three floats after a float stand at byte 4 instead of 16 |
| ConstantBuffer.SerializeLength | libobs-d3d11/d3d11-shader.cpp:319-371 | with sized values the serialization has exactly the buffer's size |
| ConstantBuffer.SerializePlaces | libobs-d3d11/d3d11-shader.cpp:319-333 | every value lands at its own position |
| ConstantBuffer.PaddingIsZero | libobs-d3d11/d3d11-shader.cpp:325-331 | bytes outside every slot are zero |
| ConstantBuffer.SetSets | libobs-d3d11/d3d11-shader.cpp:445-461 | a set gives one parameter the bytes, marks it if they are new, and touches nothing else |
| ConstantBuffer.DefaultSets | libobs-d3d11/d3d11-shader.cpp:516-521 | a default becomes the value, marked if new; without one nothing happens |
| ConstantBuffer.RebuildSetsDefaults | libobs-d3d11/d3d11-rebuild.cpp:237-249 | after a rebuild every parameter has its default or no value, and whatever has a default is marked |
| ConstantBuffer.UploadEffect | libobs-d3d11/d3d11-shader.cpp:358-385 | which outcome an upload has, which marks it takes away and when it writes the device |
| ConstantBuffer.FirstUpload | libobs-d3d11/d3d11-shader.cpp:358-385 | a shader at its defaults uploads each of them to its place |
| ConstantBuffer.FirstUploadAfterBuild | libobs-d3d11/d3d11-shader.cpp:204-207 | so does one just built whose constants all have defaults |
| ConstantBuffer.FirstUploadAfterRebuild | libobs-d3d11/d3d11-rebuild.cpp:237-249 | and one rebuilt after a device loss |
| ConstantBuffer.NextKeepsCoherent | libobs-d3d11/d3d11-shader.cpp:319-385 | every set, default, upload (also one that throws) and rebuild keeps: unmarked and complete means the device holds the values |
| ConstantBuffer.RunKeepsCoherent | libobs-d3d11/d3d11-shader.cpp:319-385 | the same over every run |
| ConstantBuffer.UploadSound | libobs-d3d11/d3d11-shader.cpp:358-385 | after any run, an upload that returns normally leaves the current values on the device exactly when something was marked, or no failed Map is outstanding, or that Map was to write what the device held |
| ConstantBuffer.StaleUntilChange | libobs-d3d11/d3d11-shader.cpp:358-385 | until a value changes every upload reports success and the device stays as it is |
| ConstantBuffer.SoundWhenMapsSucceed | libobs-d3d11/d3d11-shader.cpp:358-385 | if no Map failed, always |
| ConstantBuffer.MapFailureIsForgotten | libobs-d3d11/d3d11-shader.cpp:373-385 | after a failed Map the next upload reports success and writes nothing |
| ConstantBuffer.StaleBuffer | libobs-d3d11/d3d11-shader.cpp:373-385 | a run that ends with the old bytes on the device, for any two values |
| ConstantBuffer.Shader.BuildConstantBuffer | libobs-d3d11/d3d11-shader.cpp:137-207 | positions are the packing, the size is its end, every parameter has its default as value, and the result is coherent |
| ConstantBuffer.Shader.PlaceParams | libobs-d3d11/d3d11-shader.cpp:139-182 | the placing loop computes the packing |
| ConstantBuffer.Shader.UpdateParam | libobs-d3d11/d3d11-shader.cpp:319-341 | pads, appends and clears the mark of one parameter, or throws without touching it |
| ConstantBuffer.Shader.UploadParams | libobs-d3d11/d3d11-shader.cpp:358-385 | new state and outcome of an upload, with the marks cleared before each kind of throw |
| ConstantBuffer.Shader.SetValue | libobs-d3d11/d3d11-shader.cpp:445-461 | marks exactly when the bytes differ |
| ConstantBuffer.Shader.SetDefaultValue | libobs-d3d11/d3d11-shader.cpp:516-521 | a non-empty default becomes the value |
| ConstantBuffer.Shader.RebuildShader | libobs-d3d11/d3d11-rebuild.cpp:237-249 | new buffer, and every parameter has its default as value, marked |
| MetalOrdering.RunKeepsInv | libobs-metal/MetalDevice.swift:207-590 | in every run: pending iff in flight, in flight implies a live uncommitted buffer, a target implies the changed flag |
| MetalOrdering.DrawWritesTarget | libobs-metal/MetalDevice.swift:376-386 | a draw writes the render target that is set and marks it |
| MetalOrdering.DrawReads | libobs-metal/MetalDevice.swift:349-532 | a draw reads exactly the bound textures and its attachments |
| MetalOrdering.ClearWritesTarget | libobs-metal/MetalDevice.swift:207-329 | a clear writes and marks the render target that is set, one that fails late marks it, one that fails early does not |
| MetalOrdering.RenderPrecedesReaders | libobs-metal/MetalDevice.swift:207-329 | in every run, the write of each draw and clear to the target set at that moment stands in queue order before every command issued later that reads the texture |
| MetalOrdering.SettersRecord | libobs-metal/metal-subsystem.swift:357-381 | what each setter changes, and that all else stays |
| MetalOrdering.CopyReadsSource | libobs-metal/MetalDevice.swift:602-618 | a copy reads its source and writes its destination behind everything deferred, after flushing a marked source |
| MetalOrdering.MipmapsInPlace | libobs-metal/MetalTexture.swift:287-302 | mipmaps read and write their texture, deferred |
| MetalOrdering.FinishCommitsAll | libobs-metal/MetalDevice.swift:576-590 | finishing commits everything deferred in order and clears every mark |
| MetalOrdering.TrackedWritesComeFirst | libobs-metal/MetalDevice.swift:535-771 | in every run a draw's or clear's write precedes in queue order every later issued command that reads the texture |
| MetalOrdering.DeferringIsInvisible | libobs-metal/MetalDevice.swift:535-771 | if no immediate command conflicts with what stays deferred, all contents are as if each call took effect at once |
| MetalOrdering.StageReadsCurrent | libobs-metal/MetalDevice.swift:635-771 | while both orders agree, a stage reads what issue order left in its source if and only if the source is pending or nothing deferred writes it |
| MetalOrdering.ImmediateWriteLands | libobs-metal/MetalDevice.swift:635-771 | while both orders agree, the destination of an immediate command ends as issue order would leave it if and only if nothing that stays deferred writes the destination or the source |
| MetalOrdering.OvertakenReadDiffers | libobs-metal/MetalDevice.swift:704-771 | a deferred command that reads the destination, and whose result lasts, computes from the newer contents |
| MetalOrdering.DrawThenUploadThenStage | libobs-metal/MetalDevice.swift:704-730 | a run in which a stage of a pending texture reads an older draw instead of the buffer staged after it |
| MetalOrdering.MarkedSourceIsClean | libobs-metal/MetalDevice.swift:635-638 | with a pending source an immediate command conflicts with nothing |
| MetalOrdering.CopyThenStage | libobs-metal/MetalDevice.swift:602-618 | a copy followed by a stage of its destination reads the old contents |
| MetalCommands.MetalDevice.Clear | libobs-metal/MetalDevice.swift:207-329 | takes the protocol's step, with errors before and after marking |
| MetalCommands.MetalDevice.Draw | libobs-metal/MetalDevice.swift:349-532 | the same, with the pass descriptor kept from earlier draws |
| MetalCommands.MetalDevice.EnsureCommandBuffer | libobs-metal/MetalDevice.swift:535-543 | a buffer exists afterwards unless it cannot be made |
| MetalCommands.MetalDevice.FinishPendingCommands | libobs-metal/MetalDevice.swift:576-590 | commits, clears every flag of the in-flight set and drops the buffer |
| MetalCommands.MetalDevice.CopyTexture | libobs-metal/MetalDevice.swift:602-618 | flushes if the source is pending, then encodes in the deferred buffer |
| MetalCommands.MetalDevice.StageTo | libobs-metal/MetalDevice.swift:635-771 | flushes if the source is pending, then commits a buffer of its own; a region copy keeps the rest of its destination |
| MetalCommands.MetalDevice.StageBufferToTexture | libobs-metal/MetalDevice.swift:704-730 | commits at once without looking at flags |
| MetalCommands.MetalDevice.GenerateMipmaps | libobs-metal/MetalTexture.swift:287-302 | encodes in the deferred buffer |
| MetalCommands.MetalDevice.SetRenderTarget | libobs-metal/metal-subsystem.swift:357-381 | records target and depth and keeps the invariant |
| MetalCommands.MetalDevice.EnableFramebufferSrgb | libobs-metal/metal-subsystem.swift:396-403 | raises the changed flag when the setting changes |
| MetalCommands.MetalDevice.BeginFrame | libobs-metal/metal-subsystem.swift:276-286 | clears the target |
| MetalCommands.MetalDevice.LoadSwapChain | libobs-metal/metal-swapchain.swift:224-256 | sets the chain's target, or leaves the old one when none can be made |
| MetalCommands.MetalDevice.Flush | libobs-metal/metal-subsystem.swift:589-607 | present and flush finish pending commands |
| ProgramCache.FindIsCache | libobs-opengl/gl-subsystem.c:1134-1148 | searching the list is looking up a map keyed by the shader pair |
| ProgramCache.CacheSize | libobs-opengl/gl-subsystem.c:1134-1148 | with unique keys the map has one entry per program |
| ProgramCache.WithoutIsExact | libobs-opengl/gl-shader.c:281-300 | destroying a shader removes exactly the programs built from it |
| ProgramCache.WithoutKeepsOrder | libobs-opengl/gl-shader.c:281-300 | and keeps the order of the rest |
| ProgramCache.LinkedSound | libobs-opengl/gl-shader.c:563-599 | a linked program owns only live parameters exactly when both current shaders are live and of their kinds |
| ProgramCache.NextKeepsInv | libobs-opengl/gl-subsystem.c:1150-1200 | every step keeps the cache sound except exactly a draw that links a dead or mistyped shader |
| ProgramCache.HitIsNotStale | libobs-opengl/gl-subsystem.c:1134-1148 | a hit was linked from the very shaders now current, whatever addresses were reused |
| ProgramCache.DrawUsesLoaded | libobs-opengl/gl-subsystem.c:1134-1195 | after a draw the program in use is the listed one for the loaded pair, with the list unchanged, else a newly linked one at its front, both linked from the loaded shaders, else nothing changes |
| ProgramCache.EveryDrawUsesLoaded | libobs-opengl/gl-subsystem.c:1161-1195 | the same for every draw of every disciplined run |
| ProgramCache.LinkedUniforms | libobs-opengl/gl-shader.c:563-602 | a new program updates exactly the located uniforms of its two shaders |
| ProgramCache.LoadSelects | libobs-opengl/gl-subsystem.c:687-741 | loading takes a shader of the right kind or none, and refuses one of the wrong kind |
| ProgramCache.CreateAllocates | libobs-opengl/gl-shader.c:238-279 | a new shader lives at its address under a serial of its own |
| ProgramCache.DestroyDrops | libobs-opengl/gl-shader.c:302-329 | destroying a shader drops exactly its programs, the one in use only if it is among them |
| ProgramCache.RunKeepsInv | libobs-opengl/gl-shader.c:281-329 | sound in every reachable state if shaders are not destroyed while loaded |
| ProgramCache.StaleHit | libobs-opengl/gl-shader.c:302-329 | otherwise a new shader can hit a program of the dead one, once the driver has linked the deleted shader object's name |
| ProgramList.Program.AssignParams | libobs-opengl/gl-shader.c:563-589 | stores the located parameters in order, stopping at a failing query |
| ProgramList.Device.FindProgram | libobs-opengl/gl-subsystem.c:1134-1148 | the list walk is the lookup |
| ProgramList.Device.CreateProgram | libobs-opengl/gl-shader.c:601-665 | success puts one program in front; any failure leaves the list unchanged |
| ProgramList.Device.Unlink | libobs-opengl/gl-shader.c:682-685 | pointer surgery removes exactly one program from both chains |
| ProgramList.Device.DestroyProgram | libobs-opengl/gl-shader.c:667-690 | removes a listed program, resets the current one if it was that, and leaves the list alone for one never linked |
| ProgramList.Device.RemoveReferences | libobs-opengl/gl-shader.c:281-300 | the walk that destroys while it iterates leaves exactly the other programs |
| ProgramList.Device.DestroyShader | libobs-opengl/gl-shader.c:302-329 | takes the model's step |
| ProgramList.Device.GetProgram | libobs-opengl/gl-subsystem.c:1150-1159 | finds or creates |
| ProgramList.Device.Draw | libobs-opengl/gl-subsystem.c:1161-1200 | switches the current program as in the model |
| ProgramList.Device.LoadVertexShader | libobs-opengl/gl-subsystem.c:687-700 | ignores the same shader and one of the wrong kind |
| ProgramList.Device.LoadPixelShader | libobs-opengl/gl-subsystem.c:719-741 | the same for pixel shaders |
| ProgramList.Device.DestroyAll | libobs-opengl/gl-subsystem.c:331-337 | terminates with an empty list and no current program |
| SamplerRefs.NextKeepsInv | libobs-opengl/gl-subsystem.c:497-514 | every step keeps count equal to a live owner plus the holding textures, and slots name owned samplers |
| SamplerRefs.CountsConserved | libobs-opengl/gl-subsystem.h:429-438 | the same over every run |
| SamplerRefs.AllocatedWhileNeeded | libobs-opengl/gl-subsystem.h:434-438 | a sampler is allocated exactly while its owner or a texture has it |
| SamplerRefs.ApplyingHolds | libobs-opengl/gl-subsystem.c:497-514 | each texture a sampler is applied to holds exactly that sampler, all others what they held |
| SamplerRefs.LifetimesHold | libobs-opengl/gl-subsystem.c:1646-1661 | what creating, destroying and the samplers of a new shader do to owners, textures and slots |
| SamplerRefs.Device.SamplerRelease | libobs-opengl/gl-subsystem.h:434-438 | frees on the last reference |
| SamplerRefs.Device.DestroySampler | libobs-opengl/gl-subsystem.c:1646-1661 | clears every slot naming the sampler, then releases |
| SamplerRefs.Device.DestroyOwned | libobs-opengl/gl-subsystem.c:1646-1661 | the owner's destroy is the model's step |
| SamplerRefs.Device.DestroyTexture | libobs-opengl/gl-texture2d.c:131-137 | gives up the texture's sampler, which also empties its slots |
| SamplerRefs.Device.LoadTextureSampler | libobs-opengl/gl-subsystem.c:497-514 | exchanges the held sampler, releasing before taking |
| SamplerRefs.Device.LoadSamplerOnTextures | libobs-opengl/gl-subsystem.c:641-661 | applies a sampler to every bound texture of its unit |
| SamplerRefs.Device.LoadSamplerState | libobs-opengl/gl-subsystem.c:663-685 | sets the slot and applies the sampler |
| SamplerRefs.Device.LoadDefaultSamplers | libobs-opengl/gl-subsystem.c:702-717 | fills the slots from the shader and empties the rest |
| SamplerRefs.Device.CreateSampler | libobs-opengl/gl-subsystem.c:426-436 | starts with the owner's one reference |
| LazyState.NextKeepsInv | libobs-d3d11/d3d11-subsystem.cpp:700-870 | each remembered object matches its key, keys are unique, and a lowered flag means the requested state is bound |
| LazyState.RunKeepsInv | libobs-d3d11/d3d11-subsystem.cpp:2429-2632 | the same over every run of requests, updates and device losses |
| LazyState.LazyRefinesEager | libobs-d3d11/d3d11-subsystem.cpp:787-870 | after any run the bound object asks the driver, field by field, for the state requested now if and only if the update does not throw; one that throws changes nothing and stays due |
| LazyState.ConvertDescribes | libobs-d3d11/d3d11-subsystem.cpp:700-785 | every field of a descriptor is that of the request, each channel of the write mask is set exactly if requested, the stencil write mask is all or nothing |
| LazyState.SetRequests | libobs-d3d11/d3d11-subsystem.cpp:2429-2632 | a set requests the value and is due if it is new or forced |
| LazyState.UpdateRemembers | libobs-d3d11/d3d11-subsystem.cpp:787-870 | an update forgets nothing and adds at most the requested state |
| LazyState.LossKeepsKeys | libobs-d3d11/d3d11-rebuild.cpp:479-594 | after a device loss the same states are remembered, rebuilt from their descriptors, and none is bound |
| LazyState.ConvertInjective | libobs-d3d11/d3d11-subsystem.cpp:700-785 | nothing of a request is lost in its descriptor |
| PipelineState.DrawBindsAll | libobs-d3d11/d3d11-subsystem.cpp:2299-2301 | a draw that gets past its three updates has all three states bound as requested |
| PipelineState.NextKeepsInv | libobs-d3d11/d3d11-subsystem.cpp:2429-2632 | every setter, draw and device loss keeps the three tables sound |
| PipelineState.EveryDrawIsCurrent | libobs-d3d11/d3d11-subsystem.cpp:2429-2632 | after any run of setters, draws and device losses, each draw that goes through has bound blend, raster and depth-stencil objects that ask, field by field, for what is requested then |
| PipelineState.BlendSetters | libobs-d3d11/d3d11-subsystem.cpp:2428-2632 | each blend setter changes the fields it names to what it is given and no others |
| PipelineState.RasterSetters | libobs-d3d11/d3d11-subsystem.cpp:2428-2632 | the same for culling and scissor, which is due even where nothing changes |
| PipelineState.DepthSetters | libobs-d3d11/d3d11-subsystem.cpp:2428-2632 | the same for depth and stencil, side by side |
| PipelineState.Pipeline.UpdateStates | libobs-d3d11/d3d11-subsystem.cpp:2299-2301 | the three updates in order, the first error ending the call |
| LazyState.StateCache.SetState | libobs-d3d11/d3d11-subsystem.cpp:2429-2632 | records and flags a changed request |
| LazyState.StateCache.AddState | libobs-d3d11/d3d11-subsystem.cpp:700-785 | builds from a descriptor that describes the request and remembers it, or fails leaving the table as it was |
| LazyState.StateCache.UpdateState | libobs-d3d11/d3d11-subsystem.cpp:787-870 | search, build, bind and lower the flag, or throw |
| LazyState.StateCache.RebuildStates | libobs-d3d11/d3d11-rebuild.cpp:479-594 | released and recreated from the saved descriptors, nothing bound, everything due |
| DeviceLoss.Device.RebuildDevice | libobs-d3d11/d3d11-rebuild.cpp:431-566 | the program goes on exactly if no creation but a duplicator's fails, and then every object is rebuilt exactly once on the new device, failed duplicators end released, partners share one resource |
| DeviceLoss.Device.ReleaseAll | libobs-d3d11/d3d11-rebuild.cpp:431-477 | nothing keeps its resource; only 3D textures keep a linear view |
| DeviceLoss.Device.RebuildAll | libobs-d3d11/d3d11-rebuild.cpp:512-566 | starting from released objects, each is rebuilt once |
| DeviceLoss.Device.RebuildOne | libobs-d3d11/d3d11-rebuild.cpp:512-566 | one turn restores the object and its chroma partner and nothing else |
| DeviceLoss.Device.RebuildPairedY | libobs-d3d11/d3d11-rebuild.cpp:124-163 | luma first, then chroma over the same resource |
| DeviceLoss.Device.RebuildPairedUV | libobs-d3d11/d3d11-rebuild.cpp:165-189 | takes over the partner's resource |
| DeviceLoss.Device.CreatePair | libobs-d3d11/d3d11-subsystem.cpp:3306-3325 | a symmetric pair over one resource enters the list |
| DeviceLoss.Device.AddObject | libobs-d3d11/d3d11-subsystem.cpp:50-58 | a new object is first in the list |
| RenderTargets.NextKeepsInside | libobs-d3d11/d3d11-subsystem.cpp:2341-2364 | target and depth belong to a chain only if that chain is current and alive |
| RenderTargets.DestroyedIsForgotten | libobs-d3d11/d3d11-subsystem.cpp:2703-2710 | destroying a chain leaves no reference to it |
| RenderTargets.SetTargetChooses | libobs-d3d11/d3d11-subsystem.cpp:2038-2067 | target, depth and side after setting a target, which must not be a cube |
| RenderTargets.SetCubeChooses | libobs-d3d11/d3d11-subsystem.cpp:2080-2112 | the same for a face of a cube |
| RenderTargets.LoadMoves | libobs-d3d11/d3d11-subsystem.cpp:2341-2364 | loading a chain keeps the user's own target and depth and moves the rest to the chain's parts |
| RenderTargets.ResizeRebuilds | libobs-d3d11/d3d11-subsystem.cpp:1500-1513 | which views a resize leaves, by where it fails |
| RenderTargets.WantedViews | libobs-d3d11/d3d11-subsystem.cpp:890-910 | the views to bind are of the chosen target, side and encoding in their newest build |
| RenderTargets.OthersRecord | libobs-d3d11/d3d11-subsystem.cpp:2114-2120 | encoding, new chains, presenting and losing the device, field by field |
| RenderTargets.NextKeepsUpToDate | libobs-d3d11/d3d11-subsystem.cpp:1500-1513 | a lowered flag stays truthful over every step except exactly a failed resize while it is down |
| RenderTargets.RunKeepsInvariants | libobs-d3d11/d3d11-subsystem.cpp:2038-2120 | both over every run |
| RenderTargets.FailedResizeUnnoticed | libobs-d3d11/d3d11-subsystem.cpp:1500-1513 | a run after which a failed resize leaves the outputs unbound and flushing does not notice |
| RenderTargets.FlushBindsChoice | libobs-d3d11/d3d11-subsystem.cpp:890-910 | after any run flushing binds the view of the chosen target, side and encoding and of the chosen depth buffer, or the target has no view and the flag stays |
| RenderTargets.Device.SetRenderTarget | libobs-d3d11/d3d11-subsystem.cpp:2038-2067 | takes the model's step, defaulting to the chain's own parts |
| RenderTargets.Device.SetCubeRenderTarget | libobs-d3d11/d3d11-subsystem.cpp:2080-2112 | the same for cube faces |
| RenderTargets.Device.EnableFramebufferSrgb | libobs-d3d11/d3d11-subsystem.cpp:2114-2120 | a change raises the flag |
| RenderTargets.Device.LoadSwapChain | libobs-d3d11/d3d11-subsystem.cpp:2341-2364 | moves references into the old chain to the new one |
| RenderTargets.Device.DestroySwapChain | libobs-d3d11/d3d11-subsystem.cpp:2703-2710 | unloads the chain first if it is current |
| RenderTargets.Device.ResizeInternal | libobs-d3d11/d3d11-subsystem.cpp:1500-1513 | unbinds, rebuilds the target's view, its linear view and the depth buffer and raises the flag, or fails at any of them and keeps what was rebuilt |
| RenderTargets.Device.FlushOutputViews | libobs-d3d11/d3d11-subsystem.cpp:890-910 | binds and lowers the flag, or gives up on a target without view |
| InputSlots.BuildAndList | libobs-d3d11/d3d11-shaderprocessor.cpp:107-150 | from nested parameters to filled arrays: the layout lists the parameters' semantics and each slot holds the semantic's own buffer, as many buffers as elements |
| InputSlots.CollectedIff | libobs-d3d11/d3d11-shaderprocessor.cpp:107-123 | the semantics collected are exactly those that some mapping names, at whatever depth |
| InputSlots.ParsedBack | libobs-d3d11/d3d11-shaderprocessor.cpp:39-52 | every semantic written as its name and index is read back |
| InputSlots.GetSemanticInfo | libobs-d3d11/d3d11-shaderprocessor.cpp:39-52 | name before the first digit, index after it, an unknown name is an error |
| InputSlots.SlotsAgree | libobs-d3d11/d3d11-vertexbuffer.cpp:48-76 | the buffer at each element's slot is the one of its semantic, for every layout without gaps and every buffer supplying it |
| InputSlots.NumberedAt | libobs-d3d11/d3d11-shaderprocessor.cpp:93-140 | the slot each element ends with, whatever slots nested passes gave it |
| InputSlots.SlotsInRange | libobs-d3d11/d3d11-subsystem.hpp:740-754 | slots are below the number of buffers expected |
| InputSlots.SlotsOnto | libobs-d3d11/d3d11-subsystem.hpp:740-754 | every such slot is taken |
| InputSlots.SlotsInjective | libobs-d3d11/d3d11-shaderprocessor.cpp:93-140 | by one element only |
| InputSlots.IndicesAreSegment | libobs-d3d11/d3d11-shader.cpp:31-45 | the counted texture units are exactly the indices present |
| InputSlots.SetSlot | libobs-d3d11/d3d11-shaderprocessor.cpp:93-105 | the first element of the semantic takes the slot |
| InputSlots.AssignSlots | libobs-d3d11/d3d11-shaderprocessor.cpp:125-140 | the fixed search order gives the numbering |
| InputSlots.AssignTexCoords | libobs-d3d11/d3d11-shaderprocessor.cpp:137-140 | the search loop terminates and numbers up to the first gap |
| InputSlots.BuildInputLayout | libobs-d3d11/d3d11-shaderprocessor.cpp:107-140 | elements of all nested structs in order, numbered; an unknown semantic is an error |
| InputSlots.GetBuffersExpected | libobs-d3d11/d3d11-shader.cpp:31-45 | the flags and count of the inputs |
| InputSlots.PushBuffer | libobs-d3d11/d3d11-vertexbuffer.cpp:22-33 | appends a present sub-buffer, skips a missing one |
| InputSlots.MakeBufferList | libobs-d3d11/d3d11-vertexbuffer.cpp:48-76 | the arrays hold the list |
| UsageAnalysis.ScanBalanced | libobs-metal/OBSShader.swift:674-733 | on balanced brackets the recursive walk meets every name of the body in order and stops at its own bracket |
| UsageAnalysis.UsageIsClosure | libobs-metal/OBSShader.swift:638-733 | for every list of functions the single pass finds exactly what is reachable through calls to functions declared no later |
| UsageAnalysis.UsageIsFullClosure | libobs-metal/OBSShader.swift:638-733 | with callees first, exactly the transitive closure over the call graph |
| UsageAnalysis.CallMatchesSignature | libobs-metal/OBSShader.swift:1558-1596 | a call passes exactly the extra parameters of the callee |
| ArgumentOrder.CallBindsByPosition | libobs-metal/OBSShader.swift:888-934 | the arguments are the parameters in the same order exactly when the callee's first uses of textures and of samplers come in declaration order |
| ArgumentOrder.TexturesSwapped | libobs-metal/OBSShader.swift:1558-1596 | two textures used in the other order are passed in each other's place |
| UsageAnalysis.NothingTwice | libobs-metal/OBSShader.swift:888-934 | neither list has duplicates |
| UsageAnalysis.MainTakesAll | libobs-metal/OBSShader.swift:888-934 | main is given exactly everything that is declared |
| UsageAnalysis.CollectedInOrder | libobs-metal/OBSShader.swift:692-724 | names are collected in the order met, a callee's where it is called |
| UsageAnalysis.FirstMentions | libobs-metal/OBSShader.swift:692-733 | dropping repetitions keeps first mentions in order |
| UsageAnalysis.ArgumentsInScope | libobs-metal/OBSShader.swift:888-934 | everything passed is a parameter of the caller |
| UsageAnalysis.ForwardCallOutOfScope | libobs-metal/OBSShader.swift:638-733 | a call ahead of the declaration can pass a name that is not in scope |
| UsageAnalysis.NoCallsNoInheritance | libobs-metal/OBSShader.swift:638-733 | a function mentioning only later functions is credited with its own mentions alone |
| UsageTranspiler.TableIsClosure | libobs-metal/OBSShader.swift:638-733 | from balanced token bodies with callees first, the table gives each function exactly what some reachable body writes |
| UsageTranspiler.Transpiler.AnalyzeFunction | libobs-metal/OBSShader.swift:674-733 | walk and collection with one cursor that nested calls advance |
| UsageTranspiler.Transpiler.AnalyzeFunctions | libobs-metal/OBSShader.swift:638-660 | the table after all functions and their order |
| UsageTranspiler.Transpiler.Collect | libobs-metal/OBSShader.swift:692-724 | what one name adds |
| UsageTranspiler.Transpiler.GenerateAdditionalArguments | libobs-metal/OBSShader.swift:1558-1596 | the arguments of a call, in order of first use |
| UsageTranspiler.Transpiler.SignatureParameters | libobs-metal/OBSShader.swift:888-934 | the extra parameters, in order of declaration |
| UniformImage.InOrder | libobs-metal/OBSShader.swift:193-238 | values are aligned and follow one another as long as nothing resets the layout |
| UniformImage.KindLayout | libobs-metal/OBSShader.swift:193-238 | sizes and alignments are Metal's: columns of four-byte components, three taking the room of four |
| UniformImage.DisjointIff | libobs-metal/OBSShader.swift:193-238 | in a fragment shader values are disjoint exactly when no untyped uniform stands between two of them |
| UniformImage.SoundIff | libobs-metal/OBSShader.swift:193-238 | in both stages values are disjoint and inside the buffer exactly when no effective reset goes back to before the end of a value |
| UniformImage.FragmentSane | libobs-metal/OBSShader.swift:450-456 | in fragment shaders that is when no untyped uniform stands after a value |
| UniformImage.VertexSane | libobs-metal/OBSShader.swift:193-238 | in vertex shaders without untyped uniforms, when every value before a texture ends by byte 16 |
| UniformImage.MatrixThenTexture | libobs-metal/OBSShader.swift:193-238 | a matrix before a texture in a vertex shader takes 64 bytes of a buffer of 16 |
| UniformImage.StringLast | libobs-metal/OBSShader.swift:193-238 | a float before a string uniform has no room in the buffer |
| UniformImage.SpillIff | libobs-metal/MetalShader.swift:195-201 | in a sane layout a later value still stands after bytes of any number are written for an earlier one, exactly when these stop before it or bring the same bytes |
| UniformImage.ArraySpills | libobs-metal/MetalShader.swift:195-201 | two floats, the first set as an array of two |
| UniformImage.LastWriterWins | libobs-metal/MetalShader.swift:234-237 | after an upload each byte is that of the last uniform to write it, in any layout |
| UniformImage.WriteSlot | libobs-metal/MetalShader.swift:195-201 | in a sane layout, writing a value that fits its slot shows it and disturbs no other |
| UniformImage.Shader.SetParameter | libobs-metal/MetalShader.swift:58-70 | remembers bytes of any number and marks them |
| UniformImage.Shader.UpdateUniform | libobs-metal/MetalShader.swift:166-205 | writes the whole value of a marked uniform at its offset and nothing else, or stops exactly if it does not fit the image |
| UniformImage.Shader.UploadShaderParameters | libobs-metal/MetalShader.swift:234-237 | gets through exactly if the image has room for every value due, and the image then is that of the updates in order; in a sane layout with fitting values it gets through and every uniform ever set stands in the image as last set |
| ModifierFilter.KeptPosition | libobs-opengl/gl-egl-common.c:383-398 | the result holds each unmarked modifier behind exactly the unmarked ones before it, and nothing else |
| ModifierFilter.MoveDown | libobs-opengl/gl-egl-common.c:386-389 | removes one element by moving the rest down |
| ModifierFilter.Filter | libobs-opengl/gl-egl-common.c:383-398 | the two-index loop terminates in bounds and leaves exactly the unmarked modifiers in order |

## Left out

- Driver, COM, EGL, WGL, X11 and IOSurface calls appear only as answers given to the model or as bound state.
- The preprocessor, the lexer and the shader parser; tokens, parameters, structs and functions are inputs.
- Characters of the emitted GLSL: emitted text is a sequence of tokens, so how two adjacent tokens lex is not modelled.
- Enum conversion tables, getters, viewports, projections, colour spaces and monitor queries: one-branch facts.
- Rewriting of Metal bodies by regular expressions and string splitting, and the on-disk shader cache.
- Metal display-link callbacks, fences and drawable presentation; two Metal textures over the same storage.
- Overloaded functions in Metal shaders: function names are taken to be distinct.
- ShaderMeaning.TranslatorCorrect: names denote the same value in both languages, so the declaration of a non-square matrix, whose rows and columns GLSL exchanges, is not modelled; neither are rounding and the types of expressions; the rest of a body is covered on trees (LoopItems, PlainTokens), not as statements.
- SinCosMeaning.SinCosCorrect: the two targets are variables, not members of one; that the temporary is declared as a float whatever the angle's type is not checked.
- Translation.FlattenWf: expressions name a texture only as the object of a sampling call, not as an argument, and name no variable like a word that the writer renames, since its declaration is not renamed.
- ConstantBuffer.PackingSound: arrays count as one block here; RegisterRule has the compiler's rule for them; string and unknown parameters are not modelled (the original leaves their position uninitialised); sizes are unbounded integers, so the 32-bit buffer width is not.
- MetalOrdering.DeferringIsInvisible: the absence of conflicts is sufficient, not necessary; StageReadsCurrent and ImmediateWriteLands give exact conditions for what an immediate command reads and writes.
- MetalOrdering.TrackedWritesComeFirst: depth attachments, copy destinations and mipmaps are not tracked by the flags; they are covered by StageReadsCurrent; the part of its destination that a region copy keeps counts towards what it leaves there, not as a read.
- StageNames.NameExact: parameters and members whose names contain "inputval" or "outputval" are excluded; identifiers of function bodies are not followed.
- InputSlots.GetSemanticInfo: indices are unbounded, so the width of the parsed number is not modelled; vertex formats are left out.
- LazyState.LazyRefinesEager: enumerators of the two APIs are identified, so the tables between them are left out.
- PipelineState.NextKeepsInv: setters are record updates with the comparison they make; their assignments field by field in place are not modelled.
- DeviceLoss.Device.RebuildDevice: loss callbacks are left out.
- RenderTargets.RunKeepsInvariants: destroying a user's texture while it is current is not modelled.
- SamplerRefs.Device.LoadDefaultSamplers: a shader with more samplers than the table has slots makes the original write past the table; such shaders are excluded.
- SamplerRefs.CountsConserved: cube textures and the deferred sampler of a shader parameter are not modelled.
- UniformImage.InOrder: a texture parameter takes 16 bytes, as with 64-bit pointers; masking with power-of-two alignments is written as rounding up.
- The vertex-buffer, texture and sampler bind caches of Direct3D 11, which device loss does not reset consistently.
