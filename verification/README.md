# VC-2 high-quality decoding, modelled and verified

A model in Dafny of the decoder's demanding parts: the coefficient code and its table-driven decoder, the
dequantiser's subband order, the in-place wavelet synthesis (scalar and vectorised), the cutting of a picture into
overlapping decoding jobs, slice and fragment input, header caching and stream scanning, and the frame-by-frame
thread pool. `dafny verify dfyconfig.toml` checks everything.

| files | what they hold |
|---|---|
| VlcMachine, VlcRows, VlcDecode, VlcSamples, VlcTheorems | the four-state coefficient machine; table rows as summaries of eight of its steps; both decoders; their agreement, and the round trip with the encoder |
| Lifting, LiftingLaws, Lanes, LeGallKernels, DeslauriersKernels | a line of samples by definition, and by what its samples are of each other; a line inside a picture's memory; the streaming kernels on it |
| Planes, PlaneLaws, Pyramid, Output | the levels of a picture by definition, and by their lines; in place on a buffer; the last pass into the output |
| Tiles, JobGrid, JobBuffers, Jobs, SliceStream, SliceLayout, Slices, Fragments | windows of a picture; the job grid and its tables; a job's buffers and slots; slices as they are read and as they were written; input whole and in fragments |
| SliceLoading, Picture, Decoding | a job's slices through one buffer; windows and planes; from the bytes of a picture to its samples, and the theorem that the grid and the order of jobs do not show |
| CodedPicture, Encoder | pictures that were coded: from their samples to the bytes of their slices, and through the decoder back |
| Seams, Losses, Leftovers, ShortSides | where the decoder falls short of the picture, and exactly when |
| Barrier, Meeting, Pool | the generation-counted barrier; threads that pass two of them in turn; the pool |
| Dequantiser, SubbandOrder, StreamScan | scaling and subband order; parse-info headers and the scans for them |
| BitLayout, HeaderParse, HeaderLayout, HeaderCache | bits in bytes; the two headers as they are parsed and as they were written; how they are remembered |
| Vectors, VectorRows, VectorColumns, VectorOutput, VectorTiles | the four-lane instructions and the vectorised 5/3 passes, of a line and of a tile |

The state that the program updates in place is updated in place here too: sample buffers and output pictures are
arrays, jobs hold arrays of records, and the decoder's counters and remembered headers are fields. Each method is
proved against a function of the old state, and the theorems are lemmas about those functions. The barrier and the
pool, which are shared by threads, are state machines over their atomic steps.

What a definition says is said twice where nothing else would hold it: once as the program computes it, and once of
the result alone. Synthesised samples are nearest integers to what their neighbours predict (LiftingLaws), stored
cells hold clipped samples (`Output.Holds`), scaled coefficients have the size and the sign of their inputs
(`Dequantiser.Matrix.IsScaled`), and slices, headers and data units are those that were written (SliceLayout,
HeaderLayout, StreamScan). The repository has no encoder: the writers and `Encoder` are the inverses that those
statements need. They meet in `CodedPicture.VideoComesBack`: a video that was coded without loss, in whatever slices,
comes out of the decoder sample by sample, whatever the grid of jobs and their order.

What turned out not to hold in general, with the exact condition beside each:

- The fast coefficient decoder leaves up to four slots unwritten, so it equals the slow one exactly when those
  held zero (`VlcTheorems.FastEqualsSlowExactly`).
- A job's slices share that buffer, so a slice can show in the ones after it. They are loaded as if each by itself,
  whatever was in the buffer, exactly when every slot left alone was last written as zero
  (`SliceLoading.HarmlessExactly`), and otherwise the grid of jobs can show in the output
  (`Leftovers.DecodersDiffer`).
- The table loops of the job grid fill their table exactly when the windows fit (`JobGrid.EntriesExact`).
- The slice side computed while decoding is the one the windows were cut with exactly when less than one sample
  a slice was padded (`ShortSides.OtherSide`), and otherwise an older picture can show (`ShortSides.OldRowShows`).
- The scalar last pass loses the last column of a picture exactly when four samples were padded
  (`Output.StoredWhole`, `Losses.ColumnMissedExactly`).
- Slices wider than 32 samples get no horizontal overlap. Windows deliver every picture exactly if and only if they
  overlap wherever there are several (`Seams.SeamlessExactly`, `Seams.WideSlicesShow`).
- Headers refused after they took effect, or before they did, leave what is remembered, what is in use and what the
  picture is cut for at odds (`HeaderCache.SequenceConsistency`, `HeaderCache.PictureConsistency`,
  `HeaderCache.CutConsistency`).
- The vectorised last pass stores whole blocks of eight. It agrees with the scalar one exactly on parts that begin and
  end at multiples of eight (`VectorOutput.FinalRowIsScalar`), which the last job of a picture 1916 wide does not
  (`Losses.StoredPastTheEnd`).
- `FindNextParseInfo` only comes back empty-handed from empty data.

Conventions. Samples and coefficients are mathematical integers; a shift right is a division rounding down. Edges
of a line are mirrored within each parity, as the code does; section 15.4.4 of SMPTE ST 2042-1 clamps instead. The
Deslauriers-Dubuc filters halve without rounding and LeGall with it, as in the code. The horizontal kernels need six
samples a line (eight for DD 13,7), which the code does not check. `partial_decode` is off. The Picture theorems
are stated for one plane on two axes; the Decoding theorems take them to the three components.

Instances and helpers:

- `Losses.WidthsThatLose`: a picture 1916 samples wide loses its last column, in slices of 8 and of 16 samples.
- `ShortSides.ThirteenForSixteen`: four slices of 16 samples for a side of 50 are decoded with a side of 13.
- `JobGrid.NineSlicesInEightJobs`: nine slices in eight jobs do not fit.
- `Decoding.HighDefinition`: 1920 by 1080 samples, two levels deep, in eight by eight jobs meets every condition.
- `Decoding.CleanIsSettled`: a picture in which no block leaves a slot alone is settled, whatever the grid.
- `SliceLoading.EmptyBlockSkips`: an empty block of twelve values or more leaves four slots alone.
- `VlcRows.UnusedStores`: the slots after a row's coefficients are stored as zero.
- `VlcSamples.StartRows`, `FollowRows`, `DataRows`, `SignRows`: eleven literal rows of the table are their summaries.
- `Barrier.GenerationWraps`: a 32-bit generation tells a sleeper's own from the next.
- `StreamScan.LengthBound`, `StreamScan.HeaderWithoutNext`: which lengths a parse-info header may name, and that one
  which names none is accepted with a length of -13.
- `HeaderCache.RefusedDataReturns`, `HeaderCache.RefusedSequenceStays`: what a refused header leaves when it, or the one
  before it, comes again. The old parameters stay in use only if the refusal came before they were replaced, and the
  slices may have been counted for the refused ones.

## Model

| member | source | states |
|---|---|---|
| `VlcDecode.DecodeSimple` | vc2inversetransform_c/vlc_c.cpp:45-95 | the bit-serial decoder, bit by bit with its loop, leaves exactly the stream of coefficients that the four-state machine yields, with 1-bits implied past the end of the block |
| `VlcDecode.DecodeC` | vc2inversetransform_c/vlc_c.cpp:97-176 | the byte-per-step decoder with look-ahead, eight-wide stores and its special tail, for every block and output length: each output slot holds the bit-serial decoder's coefficient, except the slots that the rounding at line 164 leaves alone, which keep their old value; and the number returned is that of the bytes not needed, but for the one looked ahead at |
| `VlcDecode.DecodeBytes` | vc2inversetransform_c/vlc_c.cpp:98-128 | the main loop keeps state, partial value and output of the bits read so far, one byte behind the look-ahead |
| `VlcDecode.DecodeTail` | vc2inversetransform_c/vlc_c.cpp:134-173 | the last row, the cut-off code and the clearing of the rest |
| `VlcDecode.CutOff` | vc2inversetransform_c/vlc_c.cpp:155-173 | a code cut off in the middle is completed by implied 1-bits and comes out negative; zeroes follow from the next multiple of four |
| `VlcDecode.StoreEight` | vc2inversetransform_c/vlc_c.cpp:113-123 | the eight speculative stores of a row and nothing else |
| `VlcDecode.RowStep` | vc2inversetransform_c/vlc_c.cpp:109-128 | one table row does to state, partial value and output what the byte's eight bits do |
| `VlcRows.SummaryIsEightSteps` | vc2hqdecode/lut.hpp:56-1081 | a row summarises eight bit steps for every accumulated value: number and values of the coefficients, next state and partial value |
| `VlcRows.SummaryIsNotIdle` | vc2hqdecode/lut.hpp:56-1081 | a row without coefficients never ends in the start state |
| `VlcRows.ExtendSummarises` | vc2hqdecode/lut.hpp:37-54 | extending a summary by one bit summarises one bit more |
| `VlcTheorems.FastEqualsSlowExactly` | vc2inversetransform_c/vlc_c.cpp:45-176 | the two decoders leave the same coefficients if and only if the buffer was already zero in the slots the fast one leaves alone |
| `VlcTheorems.FastEqualsSlowOnZeroes` | vc2inversetransform_c/vlc_c.cpp:45-176 | from a zeroed buffer they agree for every block and output length |
| `VlcTheorems.DirtyBufferShows` | vc2inversetransform_c/vlc_c.cpp:164 | on another buffer they need not: the block 0xFF with twelve outputs |
| `VlcTheorems.SkippedIsZero` | vc2inversetransform_c/vlc_c.cpp:155-173 | in the slots left alone the coefficient would be zero |
| `VlcTheorems.DecodeEncode` | vc2inversetransform_c/vlc_c.cpp:45-95 | decoding a block that begins with the interleaved exp-Golomb code of a list of values gives the list back (sections A.4.3 and A.4.4 of SMPTE ST 2042-1) |
| `VlcTheorems.EncodeEmits` | vc2inversetransform_c/vlc_c.cpp:65-93 | the code of one value drives the machine from start to start and emits that value |
| `VlcTheorems.CoefficientIsUintAndSign` | vc2inversetransform_c/vlc_c.cpp:65-93 | a coefficient is an unsigned number as read_uint reads it, then a sign bit unless it is zero |
| `VlcTheorems.ReadBool` | vc2hqdecode/vlc.hpp:50-67 | the reader takes the next bit, moves one bit on, and returns true past the end without moving |
| `VlcTheorems.ReadUint` | vc2hqdecode/vlc.hpp:76-85 | the loop ends on every input and returns the number and place of the recursive definition |
| `Lifting.LineInverse` | vc2inversetransform_c/legall_invtransform.hpp:30-172 | analysis and synthesis of a line undo each other, for the three filters with parity-mirrored ends |
| `Lifting.LineInverseH` | vc2inversetransform_c/legall_invtransform.hpp:174-222 | the halving synthesis undoes the doubling analysis |
| `LeGallKernels.Stream` | vc2inversetransform_c/legall_invtransform.hpp:96-222 | the streaming pass with sliding registers and unrolled ends leaves all evens, then all odds (then the halving), and touches nothing off the line; of what it leaves: even samples lose a quarter of their two neighbours and odd ones gain half of theirs, each to the nearest integer, and halves are rounded up |
| `LeGallKernels.SynthV` | vc2inversetransform_c/legall_invtransform.hpp:30-171 | the same for columns, with the separate code for two and four samples |
| `LeGallKernels.SynthRow` | vc2inversetransform_c/legall_invtransform.hpp:174-222 | the same for rows, halved with rounding |
| `LiftingLaws.SynthesisExactly` | vc2inversetransform_c/deslauriers_dubuc_9_7_invtransform.hpp:31-227 | for each of the three filters, a line is the synthesis of c if and only if each of its even samples is that of c less the nearest integer to the filter's share of the odd samples around it, and each odd one that of c and the nearest integer to its share of the even ones |
| `LiftingLaws.PassExactly` | vc2inversetransform_c/legall_invtransform.hpp:174-222 | a horizontal pass leaves a line if and only if its samples are the halves of that synthesis: rounded up for LeGall, down for the others |
| `DeslauriersKernels.Stream97` | vc2inversetransform_c/deslauriers_dubuc_9_7_invtransform.hpp:31-227 | the streaming DD 9,7 pass, vertical or horizontal, equals the two-pass definition and touches nothing off the line; of the line r that it makes of c: 16 (r[2k+1] - c[2k+1]) is within 8 of -r[2k-2] + 9 r[2k] + 9 r[2k+2] - r[2k+4], ends mirrored, the upper integer of two; and even samples lose a quarter of their two neighbours |
| `DeslauriersKernels.Stream137` | vc2inversetransform_c/deslauriers_dubuc_13_7_invtransform.hpp:31-326 | the streaming DD 13,7 pass with its longest register window does too; its odd samples gain the same sixteenths, and its even ones lose thirty-seconds of -c[2k-3] + 9 c[2k-1] + 9 c[2k+1] - c[2k+3], to the nearest integer |
| `Lanes.Put` | vc2inversetransform_c/legall_invtransform.hpp:56-58 | a store at one lattice position of a row or column changes that sample only |
| `Pyramid.VInPlace` | vc2inversetransform_c/legall_invtransform.hpp:30-171 | over a whole buffer, the column loop leaves the vertical pass of the level; other cells of the picture keep their values |
| `Pyramid.HInPlace` | vc2inversetransform_c/legall_invtransform.hpp:174-222 | the row loop leaves the horizontal pass of the level |
| `Pyramid.InvertDownTo` | vc2hqdecode/VC2Decoder.cpp:1507-1540 | the levels run in place, coarsest first, leave a plane whose remaining levels reconstruct the same picture |
| `Pyramid.Invert` | vc2hqdecode/VC2Decoder.cpp:1504-1564 | the whole pyramid in place leaves the reconstruction that the recursive definition gives |
| `Planes.PerfectReconstruction` | vc2hqdecode/VC2Decoder.cpp:1504-1564 | synthesis in the decoder's order restores every integer plane from its analysis, for LeGall and both DD filters and any depth |
| `Planes.VInverse` | vc2inversetransform_c/legall_invtransform.hpp:30-171 | the vertical pass of a level undoes its analysis on the whole plane |
| `Planes.HInverse` | vc2inversetransform_c/legall_invtransform.hpp:174-222 | the horizontal pass of a level does |
| `PlaneLaws.ColumnsExactly` | vc2inversetransform_c/legall_invtransform.hpp:30-171 | a plane is what the vertical pass leaves of another if and only if the columns of the lattice are synthesised and no other sample differs |
| `PlaneLaws.RowsExactly` | vc2inversetransform_c/legall_invtransform.hpp:174-222 | the same of the horizontal pass and the rows, halved |
| `PlaneLaws.ReconstructionExactly` | vc2hqdecode/VC2Decoder.cpp:1504-1564 | a plane is the reconstruction if and only if planes lead to it whose lattices shrink by halves, each made from the one before by its columns and then its rows |
| `Output.FinalRow` | vc2inversetransform_c/legall_invtransform.hpp:224-317 | the last pass of a row stores the halved samples that its tests let through, each in its own cell, and nothing else: v as v + 2^(bits-1) when that is in the range, lower ones as 0 and higher ones as 2^bits - 1; where a part begins fewer than five samples before the end, that takes samples left of it |
| `Output.ShownExactly` | vc2inversetransform_c/legall_invtransform.hpp:251-314 | the clip is exactly the value raised by half of the range, or the end of the range it lies beyond |
| `Output.StoredWhole` | vc2inversetransform_c/legall_invtransform.hpp:283-289 | the samples stored are exactly those of the part if and only if it begins at least five samples before its row ends and does not end four before |
| `Output.FinalPass` | vc2inversetransform_c/legall_invtransform.hpp:224-317 | all rows of the part, each at its place in the output picture; the rest of the picture is unchanged |
| `Output.DecodeTile` | vc2hqdecode/VC2Decoder.cpp:1504-1564 | a job's transforms: every stored sample is the clipped sample of the reconstructed window |
| `VectorOutput.FinalRow` | vc2inversetransform_sse4_2/legall_invtransform.hpp:208-288 | the vectorised last pass of a row, in blocks of eight: every sample of the blocks that begin in the part, rounded up to whole blocks, is stored halved, raised by half of the range and clipped to its ends, and nothing else |
| `VectorOutput.FinalRowIsScalar` | vc2inversetransform_sse4_2/legall_invtransform.hpp:208-288 | the vectorised and the scalar last pass leave the same output of every row if and only if the part begins and ends at multiples of eight |
| `VectorOutput.SameSamplesExactly` | vc2inversetransform_sse4_2/legall_invtransform.hpp:208-288 | they store the same samples of a row if and only if it does |
| `VectorTiles.HInPlaceVectors` | vc2inversetransform_sse4_2/legall_invtransform.hpp:150-474 | over a whole buffer, the vectorised row loop of the last two levels leaves the horizontal pass of the level |
| `VectorTiles.InvertDownToOne` | vc2hqdecode/VC2Decoder.cpp:1507-1540 | the levels in place, the vectorised passes for spacings of one and two and the scalar ones for longer, leave a plane whose last level reconstructs the same picture |
| `VectorTiles.FinalPass` | vc2inversetransform_sse4_2/legall_invtransform.hpp:208-288 | all rows of a part by whole blocks, each at its place in the output; the rest of the output is unchanged |
| `VectorTiles.DecodeTile` | vc2hqdecode/VC2Decoder.cpp:1504-1564 | a job's transforms with the vectorised passes end to end: every block that begins in the part shows the reconstructed window |
| `VectorTiles.SamePicture` | vc2hqdecode/VC2Decoder.cpp:1504-1564 | on parts that begin and end at multiples of eight, that is the output which the scalar transforms leave |
| `Tiles.LineTile` | vc2inversetransform_c/legall_invtransform.hpp:30-222 | a line of a window that reaches two samples past an inner end synthesises the same samples as the whole line |
| `Tiles.LevelTile` | vc2hqdecode/VC2Decoder.cpp:1507-1540 | one level keeps window and picture in agreement except near the window's inner borders |
| `Tiles.TileIndependence` | vc2hqdecode/VC2Decoder.cpp:1504-1564 | for LeGall at any depth, a window cut at multiples of 2^depth reconstructs, from 2^depth samples inside its inner borders, exactly the picture's samples |
| `Tiles.DeepLevels` | vc2hqdecode/VC2Decoder.cpp:1504-1564 | such windows have lines of even length at every level |
| `Tiles.LongFilterReachesFurther` | vc2inversetransform_c/deslauriers_dubuc_9_7_invtransform.hpp:130-227 | two samples past what is wanted, enough for LeGall, are not enough for DD 9,7: for every line and every window that ends inside it some coefficient outside shows in the part that is wanted |
| `JobGrid.BuildTable` | vc2hqdecode/VC2Decoder.cpp:819-883 | when the windows fit, the table loops fill exactly one entry a slice; each entry names the lowest job whose window holds the slice, and its bit 0x40 says whether the next job's does |
| `JobGrid.Stretch` | vc2hqdecode/VC2Decoder.cpp:778-806 | the slices from one job's start to the next one's are held by that job first, by the next one in the overlap, and by no other |
| `JobGrid.WindowIsNear` | vc2hqdecode/VC2Decoder.cpp:783-806 | the window of a job is the slices of the picture that are at most the overlap away from one that it delivers |
| `JobGrid.EntriesExact` | vc2hqdecode/VC2Decoder.cpp:819-883 | the loops store one entry a slice if and only if the windows fit, and more otherwise |
| `JobGrid.OutputEnds` | vc2hqdecode/VC2Decoder.cpp:783-806 | each job's rectangle ends where the next one's begins, and the last one at the picture's end |
| `JobGrid.Delivered` | vc2hqdecode/VC2Decoder.cpp:792-795 | every sample of a side is delivered by some job |
| `JobGrid.DeliveredOnce` | vc2hqdecode/VC2Decoder.cpp:792-795 | by one job only, and none beyond the side |
| `JobGrid.HalvesDeliver` | vc2hqdecode/datastructures.hpp:123-160 | the halved chroma rectangles tile the halved side when slices have even width |
| `JobGrid.ChromaAxis` | vc2hqdecode/datastructures.hpp:107-160 | the chroma planes follow an axis of their own with the same windows and half the samples |
| `JobGrid.SlicesCover` | vc2hqdecode/VC2Decoder.cpp:695-705 | slices that hold whole points of the coarsest level cover the side, the last one not beyond it |
| `JobGrid.DecodeSliceSide` | vc2hqdecode/VC2Decoder.cpp:1458-1459 | the slice side that Decode computes is the one of setParams if and only if fewer samples than slices were padded |
| `Jobs.Job.constructor` | vc2hqdecode/datastructures.hpp:98-166 | a job's window, its coded slices, one for each slice of the window, and for each component the decoded-slice buffer, the plane and the rectangle of the output |
| `Jobs.SlotApart` | vc2hqdecode/VC2Decoder.cpp:1131-1135 | the index of a slice in a job's array is its own |
| `Jobs.WindowInside` | vc2hqdecode/VC2Decoder.cpp:797-804 | windows that fit lie inside the slice grid |
| `JobBuffers.NewComponent` | vc2hqdecode/datastructures.hpp:52-166 | a component of a job: the sizes of its buffer, its plane and its rectangle, each with memory of its own |
| `SliceStream.Source.CopiedSlice` | vc2hqdecode/VC2Decoder.cpp:1137-1175 | a slice copied elsewhere has the same content and the same length |
| `SliceStream.Source.FragmentSlices` | vc2hqdecode/VC2Decoder.cpp:1121-1228 | a fragment's slices are the picture's, wherever the fragment lies in memory |
| `SliceLayout.WrittenIsRead` | vc2hqdecode/VC2Decoder.cpp:1137-1181 | slices written one after the other, each as skipped bytes, index and three components in whole units, are read back with index and bytes for every unit and prefix; one overruns if and only if its first two components do not end inside the data |
| `Slices.SetUp` | vc2hqdecode/VC2Decoder.cpp:782-883 | the job loops and the table loops set up every job of the grid, with arrays of its own, and tables that agree with the windows |
| `Slices.Parse` | vc2hqdecode/VC2Decoder.cpp:1137-1181 | one slice is parsed into its slot, with the three overrun checks; a slice that was written out, in any unit and with any prefix, is accepted if and only if its first two components end inside the data, and then its index and the bytes of all three are those that were written; an overrun leaves other slots alone |
| `Slices.Deliver` | vc2hqdecode/VC2Decoder.cpp:1131-1211 | the record of a slice is in every job whose window holds it, and no other slot changes; it fails exactly when a check finds an overrun |
| `Slices.SliceInput` | vc2hqdecode/VC2Decoder.cpp:1230-1419 | the slices read are in every slot that holds them; all are read unless one overruns, and then those before it were; slices that were written one after the other are all read if and only if each ends inside the data as far as it is checked, and then every slot has the index and the bytes of its slice |
| `Slices.EverySlot` | vc2hqdecode/VC2Decoder.cpp:1230-1419 | after a whole picture slot (r, c) of every job holds slice (slice_start_y + r, slice_start_x + c), and every index is inside its array |
| `Fragments.SliceInputFragment` | vc2hqdecode/VC2Decoder.cpp:1121-1228 | a fragment's slices, as many as lie in the picture, are in every slot that holds them, with the index and bytes that were written, and all other slots are unchanged |
| `Fragments.Collector.HandleFragment` | vc2hqdecode/VC2Decoder.cpp:1068-1119 | a fragment of no slices restarts the count; the others add theirs, and a picture is reported when the count reaches the number of slices |
| `Fragments.FragmentAdds` | vc2hqdecode/VC2Decoder.cpp:1121-1228 | a fragment that continues the picture extends the slices whose content every job holds |
| `Fragments.LastCompletes` | vc2hqdecode/VC2Decoder.cpp:1096-1098 | in raster order the count reaches the whole picture with the last fragment and not before |
| `Fragments.Collect` | vc2hqdecode/VC2Decoder.cpp:1068-1119 | over any cutting of a picture into fragments, the last and only the last reports the picture, and then every slot has its slice's content |
| `Fragments.SameContents` | vc2hqdecode/VC2Decoder.cpp:1121-1419 | the slots have the same content whether the picture came whole or in fragments |
| `SliceLoading.DecodeSlice` | vc2inversetransform_c/vlc_c.cpp:197-204 | one component of one slice: the buffer holds the block's coefficients but for the slots left alone, which are as the slice before left them, and the patch of the plane holds the dequantised buffer |
| `SliceLoading.LoadSlices` | vc2inversetransform_c/vlc_c.cpp:179-217 | all slices of a job through the same three buffers, whatever side they are decoded with: every sample of a slice is the value of its place, from the buffer as it is after that slice, and samples in no slice are as they were |
| `SliceLoading.HarmlessExactly` | vc2inversetransform_c/vlc_c.cpp:179-217 | whatever the buffer held, every slice of the job is loaded as if decoded by itself, if and only if each slot in use that a block leaves alone was last written, by an earlier block of the job, as zero |
| `SliceLoading.ScratchIsWritten` | vc2inversetransform_c/vlc_c.cpp:195-217 | a slot of the buffer holds what the last block to write it left there |
| `Picture.JobPlaneIsWindow` | vc2hqdecode/VC2Decoder.cpp:1461-1468 | slots that hold the picture's slices, each decoded by itself, give the job its window of the picture's coefficients |
| `Picture.DeliveredIsSafe` | vc2hqdecode/VC2Decoder.cpp:783-806 | what a job delivers lies in the part of its window that the overlap keeps exact |
| `Picture.TilePixel` | vc2hqdecode/VC2Decoder.cpp:1491-1564 | the sample a job delivers is the sample of the picture reconstructed as a whole |
| `Picture.RunJob` | vc2hqdecode/VC2Decoder.cpp:1504-1564 | the transforms of a job whose plane holds its window change only its rectangle, to the samples of the whole picture |
| `Picture.EveryPixel` | vc2hqdecode/VC2Decoder.cpp:1059-1062 | in one plane, when all jobs have run, every sample of the output belongs to one job and is the whole picture's, clipped, but for the columns not stored |
| `Picture.GridsAgree` | vc2hqdecode/VC2Decoder.cpp:706-806 | two grids of jobs over the same slices give the same plane |
| `Decoding.ChromaCut` | vc2hqdecode/datastructures.hpp:107-160 | the chroma planes are cut as luma is, when slices hold whole points of the coarsest level in half their width |
| `Decoding.CanvasSuffices` | vc2hqdecode/datastructures.hpp:71-79 | windows at least three times 2^depth samples wide, with five samples to deliver, suffice for every level's kernels and for the last pass |
| `Decoding.AreaIsPart` | vc2hqdecode/datastructures.hpp:121-160 | the rectangle set up for each component of a job, halved across for chroma, is the part of that plane that the job delivers, and decoding stores into it |
| `Decoding.LoadJob` | vc2hqdecode/VC2Decoder.cpp:1457-1468 | the three planes of a job are loaded from its slots, from whatever planes and buffers held; when the slots hold the picture's slices and these are settled, they hold its window of the picture's coefficients |
| `Decoding.DecodeJob` | vc2hqdecode/VC2Decoder.cpp:1457-1564 | a job's slices and then its transforms: in all three outputs it changes only its rectangle, to the samples of its tile as it was loaded, and of the whole picture when its slices are settled |
| `Decoding.RunJobs` | vc2hqdecode/VC2Decoder.cpp:1050-1062 | all the jobs, in any order, leave three outputs in which no job appears |
| `Decoding.DecodePicture` | vc2hqdecode/VC2Decoder.cpp:1026-1066 | from the bytes to the samples, in jobs with whatever they held: reading and decoding a picture succeeds exactly when no slice overruns, and leaves the samples reconstructed from the picture's slices, if these are settled |
| `Decoding.DecodeFirst` | vc2hqdecode/VC2Decoder.cpp:980-1066 | the same for jobs and tables newly set up |
| `Decoding.DecodeFragments` | vc2hqdecode/VC2Decoder.cpp:1068-1119 | a picture in fragments: nothing shows before the last of them, and then what the whole data would leave |
| `Decoding.EverySample` | vc2hqdecode/VC2Decoder.cpp:1026-1066 | after it every sample of every component belongs to one job, and is the sample of the whole picture, but for the columns not stored |
| `Decoding.DecodersAgree` | vc2hqdecode/VC2Decoder.cpp:706-806 | two decoders with different grids of jobs, run in different orders, agree on every sample that both store |
| `CodedPicture.CodedBlock` | vc2inversetransform_c/vlc_c.cpp:45-176 | a block that begins with the code of some values is decoded to them, and the fast decoder leaves none of their slots alone |
| `CodedPicture.CodedIsSettled` | vc2hqdecode/VC2Decoder.cpp:1026-1066 | a picture whose slices code planes of coefficients, in any unit and with any prefix, is read without overrun, and nothing that earlier slices left in the buffers shows, when slices are decoded with the sides they were cut with |
| `CodedPicture.CodedIsPlane` | vc2hqdecode/VC2Decoder.cpp:1457-1468 | and the coefficients that the decoder finds are those planes |
| `CodedPicture.VideoComesBack` | vc2hqdecode/VC2Decoder.cpp:1026-1066 | every sample of a video whose coefficients were coded so comes out of the decoder, whatever the grid and the order of jobs and whatever they held before: raised by half of the range and clipped to it, but for the columns that the last pass does not store |
| `Encoder.EveryPictureCanBeCoded` | vc2hqdecode/VC2Decoder.cpp:1137-1181 | there is such data for every picture and every grid, when a quantiser index leaves coefficients as they are |
| `Seams.SeamlessExactly` | vc2hqdecode/VC2Decoder.cpp:773-806 | for a grid whose slices cover the picture, every plane of coefficients is delivered exactly if and only if, on both axes, there is one job or the windows overlap |
| `Seams.WideSlicesShow` | vc2hqdecode/VC2Decoder.cpp:773-806 | four slices of 48 by 16 samples in two by two jobs overlap in height and not in width: the first sample of the second job is -1 in the picture and 0 as delivered |
| `Losses.ColumnMissedExactly` | vc2inversetransform_c/legall_invtransform.hpp:282-286 | with the overlap of 32 over the slice's width only the last job can lose a column, in luma as in chroma, and it loses the last one if and only if four samples were padded |
| `Losses.StoredPastTheEnd` | vc2inversetransform_sse4_2/legall_invtransform.hpp:279-288 | the last job of a picture 1916 wide in slices of 8: the vectorised last pass stores four samples past the part, in the first cells of the next row of the output and, in the last row, past its end |
| `ShortSides.OtherSide` | vc2hqdecode/VC2Decoder.cpp:1458-1459 | slices are decoded with the side they were cut with if and only if less than a sample a slice was padded, and otherwise with a smaller one, never a multiple of 2^depth |
| `ShortSides.PastTheSlices` | vc2inversetransform_c/vlc_c.cpp:195-217 | what a shorter side leaves of the window, below the slices and right of them, is as the plane held it before |
| `ShortSides.OldRowShows` | vc2hqdecode/VC2Decoder.cpp:1457-1564 | a slice of 16 by 15 samples, decoded one row short: the last row that the job delivers shows what its plane held below, so that the same bytes show differently after different pictures |
| `Leftovers.DecodersDiffer` | vc2hqdecode/VC2Decoder.cpp:1457-1564 | eight slices of which only the first has data, decoded in one job and in two by two: grids that meet every condition deliver different samples at (0, 112), because the picture is not settled |
| `Leftovers.GridsDiffer` | vc2inversetransform_c/vlc_c.cpp:179-217 | up to four levels deep, the same coefficient of the fourth slice is loaded with the first slice's value in one grid and with zero in the other |
| `Barrier.InvKept` | redist/threadbarrier.hpp:29-56 | every step, spurious wakeups included, keeps the barrier's invariant |
| `Barrier.InvAlways` | redist/threadbarrier.hpp:22-56 | it holds at every point of every run from a new barrier |
| `Barrier.BarrierSafety` | redist/threadbarrier.hpp:29-48 | until unblocked: the count is the threshold less the generation's arrivals, nobody leaves an incomplete generation, each complete one has returned true once, and every arrival leaves once |
| `Barrier.CloseKept` | redist/threadbarrier.hpp:29-48 | with no more threads than the threshold nobody sleeps through a whole generation |
| `Meeting.Meeting.CallStartKeeps` | vc2hqdecode/ThreadPool.hpp:107-125 | threads that pass the two barriers in turn stay in step when one calls the first |
| `Meeting.Meeting.CallStopKeeps` | vc2hqdecode/ThreadPool.hpp:107-134 | and when one calls the second |
| `Meeting.Meeting.LeaveStartKeeps` | vc2hqdecode/ThreadPool.hpp:107-125 | and when one wakes up from the first |
| `Meeting.Meeting.LeaveStopKeeps` | vc2hqdecode/ThreadPool.hpp:107-134 | and when one wakes up from the second |
| `Pool.InvKept` | vc2hqdecode/ThreadPool.hpp:98-134 | every move of the owner or a worker keeps the pool's invariant |
| `Pool.BooksKept` | vc2hqdecode/ThreadPool.hpp:105-117 | every job given is queued, in a worker's hands, run or thrown, as often as it was given |
| `Pool.ResetIsSafe` | vc2hqdecode/ThreadPool.hpp:98-103 | no worker is inside run() when ready() resets the queue |
| `Pool.ExecuteIsComplete` | vc2hqdecode/ThreadPool.hpp:127-134 | execute() returns the number of jobs that threw, and when it is zero every job of the frame has run exactly once and none is left |
| `Pool.PoolSafety` | vc2hqdecode/ThreadPool.hpp:98-134 | both hold in every run, for any number of workers and frames and any interleaving |
| `Pool.NoDeadlock` | vc2hqdecode/ThreadPool.hpp:98-134 | at every point of every run some thread can make a move that changes something |
| `Pool.ExecuteEnds` | vc2hqdecode/ThreadPool.hpp:127-134 | while execute() waits, the moves that change something are no more than a number fixed by the state it began in |
| `Dequantiser.Dequantise` | vc2inversetransform_c/dequantise_c.cpp:91-147 | the subband loops, for slices of any sides, use exactly width times height inputs, and every sample of the slice is the scaled input of its own place: with the sign of the input, its size times the level's and subband's factor, and the offset, in quarters rounded down |
| `Dequantiser.Matrix.ScaledExactly` | vc2inversetransform_c/dequantise_c.cpp:113-141 | the scaled value is the only one whose four quarters are so near |
| `Dequantiser.Matrix.ScaledBySize` | vc2inversetransform_c/dequantise_c.cpp:113-141 | for factors and offsets that are not negative, no sample has the opposite sign of its input, negating the input negates it, and four times its size is the product and the offset but for less than four |
| `Dequantiser.StoreLevel` | vc2inversetransform_c/dequantise_c.cpp:118-146 | a level's three subbands fill the lattice of half the spacing and nothing else |
| `Dequantiser.StoreBand` | vc2inversetransform_c/dequantise_c.cpp:111-125 | a subband takes one input a point, in raster order |
| `Dequantiser.OriginUnique` | vc2inversetransform_c/dequantise_c.cpp:91-147 | no two samples take the same input |
| `Dequantiser.EveryInput` | vc2inversetransform_c/dequantise_c.cpp:91-147 | every input has its sample |
| `Dequantiser.OriginInside` | vc2inversetransform_c/dequantise_c.cpp:91-147 | a coarser lattice's inputs come before those of the finer subbands |
| `SubbandOrder.OriginSubband` | vc2inversetransform_c/dequantise_c.cpp:91-147 | a sample's factor is that of its own subband: of the coarsest lattice, or of the points that a level adds between columns, between rows, or between both |
| `SubbandOrder.OriginOrder` | vc2inversetransform_c/dequantise_c.cpp:91-147 | the inputs come by level, in a level by subband, and in a subband in raster order: one comes before another if and only if its sample precedes in that order |
| `StreamScan.FindNextParseInfo` | vc2hqdecode/VC2Decoder.cpp:199-226 | a place returned is the least that parse_info accepts, with nothing but non-headers before it; the scan fails at the first header that is cut off, and finds nothing only in empty data (section 10.5.1 of SMPTE ST 2042-1) |
| `StreamScan.SequenceSynchronise` | vc2hqdecode/VC2Decoder.cpp:146-197 | the scan follows headers strictly forward and so ends; what it reports, and the place it tells the caller to go on from, are those of what stands at the end of the trail; in data units that were written one after the other it finds the first that stops it, and goes on at it or, from a sequence header, at the next unit |
| `StreamScan.TrailClimbs` | vc2hqdecode/VC2Decoder.cpp:154-184 | the offset grows with every step |
| `StreamScan.HeaderExactly` | vc2hqdecode/stream.cpp:30-69 | a header is accepted, with its code and its two distances, if and only if its thirteen bytes stand there: prefix, code, and both words highest byte first; the distance is none or at least thirteen, and the data it leads to ends inside |
| `StreamScan.TrailOfUnits` | vc2hqdecode/VC2Decoder.cpp:154-184 | over units written one after the other the trail goes from unit to unit, by their distances or, where there is none, past the thirteen bytes |
| `HeaderParse.ParseLocal` | vc2hqdecode/VC2Decoder.cpp:944-976 | parsing a header by its plan depends only on the bytes it uses up |
| `HeaderCache.HitIsExact` | vc2hqdecode/VC2Decoder.cpp:944-945 | remembered bytes give what a fresh parse gives if and only if they do not reach past the data, where the code compares all the same |
| `HeaderCache.SequenceIsExact` | vc2hqdecode/VC2Decoder.cpp:351-475 | a call with a sequence header, known or not, leaves in effect the values of a fresh parse |
| `HeaderCache.SequenceConsistency` | vc2hqdecode/VC2Decoder.cpp:360-475 | remembered sequence header and values in effect agree after it if and only if it was known; or accepted, from inside the data; or refused with the values remembered, or with none remembered |
| `HeaderCache.PictureConsistency` | vc2hqdecode/VC2Decoder.cpp:978-1000 | remembered transform parameters and those in use agree after a picture if and only if they were known or not supported; or accepted, from inside the data; or refused by a decoder not configured, or with the values in use, or when already in use |
| `HeaderCache.CutConsistency` | vc2hqdecode/VC2Decoder.cpp:659-806 | the picture stays cut for the parameters in use if and only if those of a header are known, not supported or accepted; or refused by a decoder not configured, or with the values in use, or before both changes or after both |
| `HeaderCache.ShortcutsInvisible` | vc2hqdecode/VC2Decoder.cpp:351-475 | over any run of sequence headers and pictures that parse and are accepted, the decoder with both shortcuts has the version, format, parameters and cutting of one that parses everything, and takes the same bytes, though it keeps its configuration where the other starts anew |
| `HeaderCache.Decoder.ParseSeqHeader` | vc2hqdecode/VC2Decoder.cpp:351-475 | the values take effect and the configuration is given up before the format is accepted, and only then the bytes are remembered; a header that was written field by field is in effect with the values it was written from, known or not |
| `HeaderCache.Decoder.ProcessTransformParams` | vc2hqdecode/VC2Decoder.cpp:940-1024 | the bytes are remembered before the parameters are judged; the slices are counted anew and the parameters put to use as far as they get before a refusal; parameters that were written field by field for the version in effect, and are accepted, are in use with the values they were written from, and as many bytes are taken |
| `HeaderLayout.TransformIsParsed` | vc2hqdecode/VC2Decoder.cpp:944-976 | wavelet, depth, from version 3 on two flags that are not set, slices across and down, prefix, unit and a custom matrix or none, written field by field, are parsed back under the same version, and as many bytes are taken, whatever follows |
| `HeaderLayout.SequenceIsParsed` | vc2hqdecode/VC2Decoder.cpp:351-458 | so is a sequence header: versions, profile, level and base format, the eight optional parts with their own flags, numbers and custom values, and the coding mode |
| `HeaderLayout.FieldsAreRead` | vc2hqdecode/VC2Decoder.cpp:944-976 | fields of the kinds that a plan asks for are read as they were written, flags as bits and numbers in their interleaved code |
| `HeaderParse.UintInIsUint` | vc2hqdecode/vlc.hpp:76-85 | inside the data the parser reads numbers as read_uint does, and stops where read_uint reaches the end |
| `VectorRows.SynthRow1` | vc2inversetransform_sse4_2/legall_invtransform.hpp:150-206 | the vectorised row of skip 1 equals the scalar row, for a multiple of eight samples |
| `VectorRows.SynthRow2` | vc2inversetransform_sse4_2/legall_invtransform.hpp:388-474 | the vectorised row of skip 2 does, and stores the samples between back as they were |
| `VectorRows.ShiftedClip` | vc2inversetransform_sse4_2/legall_invtransform.hpp:270-273 | shift left, saturating pack and shift right clip to the active bits as min and max do, while the shift stays in 32 bits |
| `VectorColumns.VInPlaceVectors` | vc2inversetransform_sse4_2/legall_invtransform.hpp:33-89 | the vectorised vertical pass, by strips of 1024 columns and vectors of four, leaves the same picture as the scalar pass; blended-out columns keep their values |
| `VectorColumns.MiddleBlock` | vc2inversetransform_sse4_2/legall_invtransform.hpp:62-74 | a block of four columns is brought on by two samples where the level has columns |

## Left out

- The table's literal rows: the model's rows are the summaries, and eleven literal rows are proved to be theirs.
- 32-bit and 16-bit overflow of samples and coefficients, except in the clip and the barrier's generation.
- `VlcDecode.DecodeC`: the mask at line 164 is taken on unbounded numbers.
- `Slices.Deliver`: copies in the order of `SliceInputFragment`; the row branches of `SliceInput` copy the same record in another order. The skip branches are for `partial_decode`, and `JobGrid.BuildTable` shows that no entry leads to them otherwise.
- `Slices.SliceInput`: memory is a total function of addresses, so that the bytes read after a passed check need no bound of their own.
- `Fragments.SliceInputFragment`: a fragment that begins past the last column of a row of the picture, for which the code reads past its tables.
- `Decoding.RunJobs`: the jobs run one after the other, in any order; that they do not meet in memory is proved, their interleaving is the pool's. The transforms are those of LeGall: `Tiles.LongFilterReachesFurther` shows that the theorem is not true of the longer filters with the same windows.
- `Decoding.DecodePicture`: what shows of an unsettled picture is stated job by job in `Decoding.DecodeJob`.
- `VectorTiles.DecodeTile`: asks that rows hold whole blocks and that samples stay in 32 bits when shifted, which the code does not check.
- The last passes of the other filters.
- `StreamScan.SequenceSynchronise`: offsets are unbounded; the sequence header found is parsed in HeaderCache.
- `HeaderCache.Decoder.ProcessTransformParams`: whether parameters are accepted, and how far they get before they are refused, is a function of the values; a refusal after the slices are counted also deletes the jobs.
- `HeaderCache.Decoder.ParseSeqHeader`: whether a format is supported is a function of the values; preset tables stay out.
- `Pool.PoolSafety`: `stop()`, and the C++ memory model behind the atomic steps; jobs left in the queue by a frame that threw count as given to the next.
- `partial_decode`, the colourise modes, Haar, Fidelity and Daubechies filters, preset tables and quantiser factors.
- The 16-bit vector passes and the fixed-size vector dequantisers.
- Networking, logging, CPU detection, NUMA placement, the C interface and the command-line tool.
