# opengl_tex1d_benchmark in Dafny

A model of the parts of the OpenGL 1D-versus-2D texture sampling micro-benchmark
that can be stated without a GPU, with proofs of what they promise:

- **The numbered shader listing** (`printCodeWithLines`, `printShaderCodeWithHeader`
  in `src/utils.cpp`). It prints one or more NUL-terminated sources. Each line gets a
  `"%4d| "` label, and one line counter runs across all sources. `TextLines`
  defines complete lines and joining. `LineLabels` defines the `%4d| ` label.
  `CodeListing` holds:
  - the listing as a pure function (`Listing`);
  - the printing loop as imperative methods with the source's `start`/`end`/`line`
    variables, proved to print exactly that text;
  - lemmas about what the text looks like.
- **The two name lookups** of `src/utils.cpp` (`GlNames`): `geGlErrStr` and the
  shader-type switch of `easyCreateShader`.
- **The measurement schedule** of `src/main.cpp` (`BatchSchedule`). The batch loop
  records the GL calls it issues. Per-batch elapsed times are an input, and the
  two-slot `time` array is updated in place. The 128-entry texel table is filled
  by a loop.
- **The scratch buffer's span arithmetic** of `src/utils.hpp` (`ScratchBuffer`).

Printed output is modelled as the text a method returns. A source string is a
`seq<char>` read up to its first NUL (`CodeListing.CStr`). The OpenGL enum values
(error codes, shader types, texture targets) are the standard values of the OpenGL
API; the GL headers are not part of this model.

## Model

| member | source | states |
|---|---|---|
| `CodeListing.PrintCodeWithLines` | src/utils.cpp:69-89 | For every list of NUL-terminated sources, the printed text is exactly `Listing(srcs)`: every complete line of every source behind its own label, then the bare label of the line after the last newline, then a final newline. The loop invariant ties the text printed so far to the lines of the sources already scanned. |
| `CodeListing.PrintSource` | src/utils.cpp:75-86 | The inner `while` over one source. Starting from the text and counter left by the sources before it, it extends the numbering by exactly that source's complete lines. Its label counter ends at one more than the number of lines numbered so far. |
| `CodeListing.PrintShaderCodeWithHeader` | src/utils.cpp:91-95 | Prints the listing of the two sources `[header, src]`. |
| `CodeListing.Listing` | src/utils.cpp:69-89 | The reference text of the listing. Read as lines, it is `ListingLines(srcs)` joined with newlines: each complete source line behind the label of its index, then a bare label for the text after the last newline. It always ends with '\n'. |
| `CodeListing.ListingReadsBack` | src/utils.cpp:77-88 | Reading the printed text back line by line gives exactly the labelled lines, and nothing follows the final newline. |
| `CodeListing.NumberedIsJoin` | src/utils.cpp:79-80 | Printing segment, newline, label step by step equals joining the labelled lines. |
| `CodeListing.ListingLineCount` | src/utils.cpp:71-88 | The listing has 1 + (total number of '\n' in all sources) labelled lines. |
| `CodeListing.ListingLabels` | src/utils.cpp:77-82 | Line `j` of the listing starts with the label of `j`, so the label numbers rise by exactly one per newline. |
| `CodeListing.ListingLine` | src/utils.cpp:77-82 | Listing line `k` is the label of `k` followed by the `k`-th complete source line. |
| `CodeListing.ListingBounds` | src/utils.cpp:71-88 | The output starts with the label of line 0 and its last character is '\n'. |
| `CodeListing.ListingStart` | src/utils.cpp:71 | The output of any list of sources begins with `"   0\| "`. |
| `CodeListing.ListingLinesNoNewlines` | src/utils.cpp:79-80 | No listing line contains a '\n'. |
| `CodeListing.NumberingContinues` | src/utils.cpp:72-76 | The counter is not reset between sources. In the listing of `a + b`, line `j` of the sources in `b` is labelled with the number of lines of `a`, plus `j`. |
| `CodeListing.AllLinesAppend` | src/utils.cpp:73-87 | The complete lines of a concatenation of source lists are the lines of each, in order. |
| `CodeListing.TwoSources` | src/utils.cpp:73-87 | Two sources contribute the lines of the first, then the lines of the second. |
| `CodeListing.SecondSourceLabels` | src/utils.cpp:72-76 | Line `j` of the second source is labelled with the first source's line count plus `j`. |
| `CodeListing.TrailingTextDropped` | src/utils.cpp:77-86 | Text after a source's last '\n' never reaches the output. Appending newline-free text before the NUL leaves the listing unchanged. |
| `CodeListing.TwoSourcesExample` | src/utils.cpp:69-89 | `"a\n"` and `"b\nc"` are listed as `"   0\| a\n   1\| b\n   2\| \n"`: the numbering continues and `c` is dropped. |
| `CodeListing.CStrPrefix` | src/utils.cpp:77 | A C string is the NUL-free prefix of its buffer, ended by the first NUL. |
| `CodeListing.CStrAtNul` | src/utils.cpp:77 | A C string ends exactly at the first NUL. |
| `CodeListing.TotalNewlinesCount` | src/utils.cpp:78 | The number of complete lines of all sources is their total number of '\n'. |
| `CodeListing.HeaderText` | src/utils.cpp:10-14 | The header is `"\n#version 330\n#define PI 3.1415926535897932\n"`. |
| `CodeListing.HeaderIsLines` | src/utils.cpp:10-14 | Read as a source, the header yields the lines `""`, `"#version 330"` and `"#define PI 3.1415926535897932"`. |
| `CodeListing.HeaderNoNul` | src/utils.cpp:10-14 | The header contains no NUL. |
| `CodeListing.HeaderLineCount` | src/utils.cpp:10-14 | The header contributes exactly 3 lines. |
| `CodeListing.ShaderLines` | src/utils.cpp:93-94 | The shader listing lists the header's lines first, then the source's. |
| `CodeListing.ShaderListingLength` | src/utils.cpp:93-94 | The shader listing has 4 + (newlines of `src`) lines, and the last is a bare label. |
| `CodeListing.ShaderHeaderLabels` | src/utils.cpp:93-94 | Listing lines 0-2 are the labelled header lines. |
| `CodeListing.ShaderSourceLabels` | src/utils.cpp:93-94 | Source line `j` is labelled `3 + j`: the header shifts the numbering by its three newlines. |
| `TextLines.FirstNL` | src/utils.cpp:77-78 | The index found holds a '\n' and no earlier position does. |
| `TextLines.CompleteLines` | src/utils.cpp:77-82 | No complete line contains a '\n'. |
| `TextLines.CompleteLinesCount` | src/utils.cpp:78 | There is one complete line per '\n'. |
| `TextLines.CompleteLinesOfJoin` | src/utils.cpp:79 | Round trip: splitting joined newline-free lines gives those lines back. |
| `TextLines.JoinOfCompleteLines` | src/utils.cpp:77-86 | Round trip: the complete lines joined, followed by the rest after the last '\n', give back the text. |
| `TextLines.CompleteLinesNoNewlineSuffix` | src/utils.cpp:84-85 | Appending text without a '\n' adds no complete line. |
| `TextLines.CompleteLinesSnoc` | src/utils.cpp:78-82 | Appending a segment and a '\n' to text that is empty or ends with '\n' adds exactly that segment as the next line. |
| `TextLines.RestOfJoin` | src/utils.cpp:88 | Joined lines leave nothing after the last '\n'. |
| `TextLines.JoinLinesAppend` | src/utils.cpp:79 | Joining distributes over concatenation of line lists. |
| `TextLines.JoinLinesEnd` | src/utils.cpp:79 | Joined text is empty or ends with '\n'. |
| `LineLabels.Decimal` | src/utils.cpp:80 | The numeral is non-empty, all digits, and has no leading zero. |
| `LineLabels.ParseDecimalOfDecimal` | src/utils.cpp:80 | Round trip: parsing the numeral of `n` gives `n`. |
| `LineLabels.PadDecimal` | src/utils.cpp:80 | `%4d` of `n`: a numeral of fewer than four digits is preceded by blanks up to width 4; a longer numeral is printed whole, without padding. |
| `LineLabels.Label` | src/utils.cpp:80 | The label `printf("%4d\| ", n)` prints is at least 6 characters wide, and reading it back gives `n`. |
| `LineLabels.LabelShape` | src/utils.cpp:80 | A label ends with `"\| "` and has no '\n'. |
| `LineLabels.LabelInjective` | src/utils.cpp:80 | Different line numbers get different labels. |
| `LineLabels.LabelZero` | src/utils.cpp:71 | The label of line 0 is `"   0\| "`. |
| `GlNames.ErrorCodeCount` | src/utils.cpp:20-28 | There are eight distinct known codes. |
| `GlNames.GlErrStr` | src/utils.cpp:18-32 | `geGlErrStr`: exactly the eight listed codes have a name, and every other code fails. Each name maps back to its code through the reverse table. |
| `GlNames.GlErrStrOfCode` | src/utils.cpp:18-32 | Round trip: a known name is the name of its code. |
| `GlNames.GlErrStrInjective` | src/utils.cpp:18-32 | Distinct codes have distinct names. |
| `GlNames.ShaderTypeSlot` | src/utils.cpp:99-110 | The selected slot is always inside the three-entry name table. |
| `GlNames.ShaderTypeName` | src/utils.cpp:99-110 | The name the switch selects: exactly vertex, fragment and geometry shaders are named, and every other type fails. The name maps back to the type through the reverse table. |
| `GlNames.ShaderTypeNamesAsListed` | src/utils.cpp:99-110 | Vertex is "VERT", fragment is "FRAG", geometry is "GEOM". |
| `GlNames.ShaderNameRoundTrip` | src/utils.cpp:99-110 | A known name is the name of its type. |
| `BatchSchedule.RunBatches` | src/main.cpp:172-188 | The loop issues exactly the calls of 40 batches indexed from `initMode`. The two `time` slots start at 0, and each ends as the sum of the elapsed times of its mode's batches. |
| `BatchSchedule.RunBatch` | src/main.cpp:179-186 | One batch binds its mode's program and texture, issues 2500 clear+draw pairs, then one finish. |
| `BatchSchedule.Mode` | src/main.cpp:178-180 | The mode is always 0 or 1, so indexing `prog`, `targets`, `tex` and `time` by it stays in bounds. |
| `BatchSchedule.ModesAlternate` | src/main.cpp:177-178 | The first batch runs in `initMode % 2`, and consecutive batches alternate modes. |
| `BatchSchedule.ModeCountPairs` | src/main.cpp:177-178 | Any `2j` consecutive batches hold exactly `j` batches of each mode. |
| `BatchSchedule.TwentyBatchesPerMode` | src/main.cpp:174-178 | Whatever `initMode` is, each mode gets exactly 20 of the 40 batches. |
| `BatchSchedule.ModeTimeStep` | src/main.cpp:187 | A batch adds its elapsed time to its own mode's slot. The other slot is unchanged. |
| `BatchSchedule.TimesAddUp` | src/main.cpp:172-187 | The two slots together hold the sum of all batch times, each counted once. |
| `BatchSchedule.ModeTimeMonotone` | src/main.cpp:187 | With non-negative batch times, neither accumulator ever decreases. |
| `BatchSchedule.FrameCallsShape` | src/main.cpp:182-185 | The frame loop alternates clear and draw, one pair per frame. |
| `BatchSchedule.FrameCallsCount` | src/main.cpp:182-185 | `n` frames issue `n` clears, `n` draws and nothing else. |
| `BatchSchedule.BatchShape` | src/main.cpp:179-186 | A batch starts with its two bindings, ends with its finish, and has no other finish. |
| `BatchSchedule.BatchFrames` | src/main.cpp:182-185 | Between the bindings and the finish, position `2 + 2i` is a clear and `3 + 2i` is a draw. |
| `BatchSchedule.BatchCounts` | src/main.cpp:182-186 | A batch has one finish and `frames` clears and draws. |
| `BatchSchedule.BatchProgramCount` | src/main.cpp:179 | A batch binds its own mode's program once and the other program never. |
| `BatchSchedule.ScheduleCounts` | src/main.cpp:177-186 | `k` batches issue `k` finishes and `k * frames` clears and draws. |
| `BatchSchedule.ScheduleProgramCount` | src/main.cpp:177-179 | Each program is bound once per batch of its mode. |
| `BatchSchedule.WholeRun` | src/main.cpp:175-186 | The whole run issues 40 finishes and 100000 clears and draws, and binds each program 20 times. |
| `BatchSchedule.CountAppend` | src/main.cpp:177-186 | Call counts add up over concatenated traces. |
| `BatchSchedule.CountMember` | src/main.cpp:186 | A call occurs in a trace exactly when its count there is positive. |
| `BatchSchedule.FillTexels` | src/main.cpp:148-150 | Fills a fresh 128-entry array in which texel `i` holds `2*i` in every channel. |
| `BatchSchedule.ToU8` | src/main.cpp:150 | The conversion of `2*i` to a `u8` channel is the byte congruent to it modulo 256. It is the value itself when that is below 256. |
| `BatchSchedule.Splat` | src/main.cpp:150 | `glm::u8vec3(v)` puts the same converted byte in all three channels. |
| `BatchSchedule.TexelsFit` | src/main.cpp:148-150 | Converting `2*i` to `u8` loses nothing for `i < 128`. The largest value is 254. |
| `ScratchBuffer.BufferSpan` | src/utils.hpp:19-22 | `bufferSpan<T>(offset)` starts at `offset` and lies inside the buffer. The tail it leaves is smaller than one element. |
| `ScratchBuffer.BufferSpanIsMaximal` | src/utils.hpp:22 | No span of more elements of the same size starting at `offset` fits. |
| `ScratchBuffer.DefaultByteSpan` | src/utils.cpp:5 | The byte span at offset 0 is `bufferU8`, the whole 4194304-byte buffer. |
| `ScratchBuffer.ByteSpanReachesEnd` | src/utils.hpp:22 | A byte span always ends exactly at the end of the buffer. |

## Left out

- All GLFW and OpenGL calls are outside the model. This covers window setup, buffer and texture creation, shader compile and link, uniforms, and the driver's behaviour. The batch loop records its GL calls as a trace, and the driver's handles are named by their slot.
- Compile and link error reporting in `easyCreateShader` and `easyCreateShaderProg` is not modelled; it is I/O around the listing.
- `glfwGetTime` readings and `double` arithmetic are not modelled. The elapsed time of each batch is a `real` input, so floating-point rounding in `time[mode] +=` is not captured.
- `glErrorCallback` is not modelled; it is a debug hook that only prints and asserts.
- The `defer` helper is not modelled; it is a C++ scope-exit device.
- The scratch buffer's raw contents and the pointer casts of `bufferSpan` are not modelled; spans are byte ranges only.
- GLSL shader text is not modelled. It enters the listing only as opaque input strings.
- The final timing `printf` in `src/main.cpp` is not modelled; it is console output.
- ScratchBuffer.BufferSpan: requires `offset <= SCRATCH_BUFFER_SIZE`. A larger offset makes the source's unsigned subtraction wrap, and that case is not modelled.
- CodeListing.PrintCodeWithLines: the source's line counter is a 32-bit `int`. The model's counter is unbounded, so overflow after 2^31 lines is not captured.
- CodeListing.PrintCodeWithLines: requires a NUL in every source, standing for a valid C string. Reading past the end of a buffer without a terminator is undefined in C++ and is not modelled.
- CodeListing.PrintSource: the inner `while` is a separate method so its proof stays small. The text it prints and the order of printing are those of the inline loop.
- BatchSchedule.RunBatch: the frame loop and bindings of one batch are a separate method for the same reason.
- BatchSchedule.RunBatches: `initMode` is any natural number, which generalises the source's constant 0. The source's `int` batch index would overflow only for `initMode` near 2^31, and that is not modelled.
- `printf("%.*s\n", ...)` would stop at a NUL inside the segment. Segments lie before the source's first NUL, so this never happens and is not modelled separately.
