# Seedless parallel data generation and expiring sessions

Two parts of the repository are modelled.

**The TPC-H data generator, `dbgen`.** Every column draws from a random stream of its own. A row takes as many
draws as it happens to need, and is then padded to a fixed number of draws per stream, so that a process can jump over
any number of rows by modular exponentiation and start any chunk of any table without a seed file. The model keeps the
global stream array as an object that the row makers, the padding, the skip routines and the row loop update in place
(`Generator`). Each of those methods is proved against a function of the row index and of the stream values (`Build`,
`Runs`). About these functions the main law is proved: the chunks of a table, printed by processes that know nothing
of each other, are what one process prints (`Parallel`, `Driver`). Two further laws concern the update sets: they can
be resumed anywhere (`Updates`), and the files they write fit the population they are applied to (`Refresh`,
`RefreshFiles`). What the rows look like is stated a second time without the functions that make them: every column by
the stream values that give it (`Columns`), and some rows by the answers distributed with the benchmark, which are
computed from the declared seeds (`Answers`).
Around this stand the generators themselves with their jumps and their period (`Rnd`, `SpeedSeed`, `Rng64`, `Period`),
the shuffle (`Shuffle`), the part and supplier formula (`Suppliers`, `SupplierRows`), the ranges of the
generated values (`Bounds`), the calendar (`Calendar`), amounts of money (`Money`), file segments (`InsertSegments`,
`Segments`), the customer keys at all scales (`CustomerKeys`, with the stream positions it computes in `FarDraws`) and
the packed decimal library (`Packed`, `Bcd2`).

**Sessions of a node.** Users log in with every request, are logged out by a cleaner that looks only at the head of a
queue, and own database objects that disappear with their session. `Sessions` is the state machine with its invariant
over every run; `UserManager` holds the classes that update their fields in place, each operation proved to take one of
the machine's steps.

Where the code does not do what one would expect of it, the model follows the code, names an input and states exactly
when the expectation holds:

- chunks of orders differ from the serial run from scale 30000 on (`CustomerKeys.KeysAgreeExactly`);
- a 64-bit draw leaves its range from one stream value (`Rng64.Draw64InRange`, `Rng64.CustomerEscapes`), which a chunk
  of a run reaches (`CustomerKeys.CustomerEscapesInRun`);
- `set_state` skips the remainder of a population for orders but not for lineitems (`Updates.UpdatesFollowPopulation`,
  `Updates.UpdatesLag`);
- delete keys run out of generations at set 1000 (`Refresh.RefreshRuns`, `Refresh.ThousandthSetMisses`);
- insert files overflow from set 10000 on (`InsertSegments.InsertFiles`, `Updates.InsertsOverflow`);
- the part and supplier formula repeats suppliers when there are few of them (`Suppliers.FourSuppliersExactly`,
  `Suppliers.FewSuppliersCollide`);
- the generator's calendar has no leap day in 2000 (`Calendar.LeapYears`);
- `bcd2_sub` never clears its borrow (`Bcd2.Number.Sub`, `Bcd2.HundredMinusOne`).

The comment on `NextRand` that it generates all numbers of its range is proved (`Period.ReachesEveryValue`).

Integers are unbounded in Dafny; the 64-bit generator truncates explicitly, the 31-bit products are shown to fit, and
order totals are shown to fit 32 bits. Draws are computed with exact fractions. The scale, the base row counts and the
cumulative weights of the distributions are parameters (`Build.Settings`); moments of time and the answers of databases
are parameters of the session model.

## Model

| member | source | states |
|---|---|---|
| `Parallel.ParallelEqualsSerial` | benchmarks/TPC-H_Tools_v3.0.0/dbgen/driver.c:420-445 | For every table, chunk count and start values of the streams, at every scale for the tables without orders and below 30000 for those with them: the rows of the chunks, each started by skipping, put one after the other, are the rows one process prints |
| `Parallel.DrawBudget` | benchmarks/TPC-H_Tools_v3.0.0/dbgen/rnd.h:58-108 | Whatever is drawn, the columns of a row take at most the declared boundary of draws from every stream that is padded for it; the text pool, generated from stream 5 of no table when a process writes its first comment, is not counted |
| `Parallel.RowMovesBySkip` | benchmarks/TPC-H_Tools_v3.0.0/dbgen/rnd.c:115-144 | A generated and padded row moves every stream that the skip routines move by exactly the skip of one row |
| `Parallel.OutputReadsSkipped` | benchmarks/TPC-H_Tools_v3.0.0/dbgen/bm_utils.c:573-583 | What is printed of a row depends on no stream that the skip routines leave behind |
| `Parallel.SkipReplacesRows` | benchmarks/TPC-H_Tools_v3.0.0/dbgen/speed_seed.c:159-261 | n generated rows leave the streams where skipping n rows does |
| `Parallel.ResumeBySkipping` | benchmarks/TPC-H_Tools_v3.0.0/dbgen/bm_utils.c:559-588 | A run can be cut at any row and its second part started by skipping the first |
| `Parallel.HalfOfPair` | benchmarks/TPC-H_Tools_v3.0.0/dbgen/driver.c:181-184 | Parts alone print the part, partsupp alone its partsupp rows, orders alone the order and lineitem alone the lines of the row that the pair generated together prints whole, row by row, although their runs pad different streams |
| `Parallel.ChunkedHalf` | benchmarks/TPC-H_Tools_v3.0.0/dbgen/speed_seed.c:173-198 | Chunked generation of one table prints, row by row, that half of the row one process prints for the pair; suppliers and customers print the whole row |
| `Parallel.RowAlone` | benchmarks/TPC-H_Tools_v3.0.0/dbgen/driver.c:420-445 | Row i of the run of one process is made, by itself, from the declared seeds skipped over the rows before it |
| `Parallel.ChunksAreEven` | benchmarks/TPC-H_Tools_v3.0.0/dbgen/bm_utils.c:565-571 | Every chunk but the last has as many rows as the number of chunks goes into the table |
| `Parallel.PastChunkGoesOn` | benchmarks/TPC-H_Tools_v3.0.0/dbgen/bm_utils.c:573-585 | With an even split, a step past the last prints what one process would print if it went on past the end |
| `CustomerKeys.KeysAgreeExactly` | benchmarks/TPC-H_Tools_v3.0.0/dbgen/build.c:176-179 | With the declared seed, the program's row counts and any scale an option can carry, chunked generation gives every order the customer that serial generation gives it, for every number of chunks an option can carry, exactly at the scales below 30000; from there on as many chunks as the scale already differ, in order 1500001 |
| `FarDraws.After1500000` | benchmarks/TPC-H_Tools_v3.0.0/dbgen/rng64.c:103-140 | Where the declared seed of the customer keys stands after 1500000 draws of either generator |
| `CustomerKeys.CustomerEscapesInRun` | benchmarks/TPC-H_Tools_v3.0.0/dbgen/build.c:176-177 | A run reaches that value: at scale 128950, which the program accepts with a note, chunk 114 of 229 gives an order the customer -3482275807 |
| `CustomerKeys.ColumnOfRows` | benchmarks/TPC-H_Tools_v3.0.0/dbgen/build.c:176-185 | Below 30000 the customers compared there are those of the printed order rows |
| `CustomerKeys.KeyStream.MkOrderKey` | benchmarks/TPC-H_Tools_v3.0.0/dbgen/build.c:176-185 | The customer of an order at every scale, by the 64-bit draw or the 31-bit one |
| `CustomerKeys.KeyStream.Orders` | benchmarks/TPC-H_Tools_v3.0.0/dbgen/driver.c:305-366 | The customers of orders generated in a row at every scale, with row_start and row_stop around each |
| `CustomerKeys.KeyStream.ChunkOrders` | benchmarks/TPC-H_Tools_v3.0.0/dbgen/speed_seed.c:200-217 | The customers of a chunk that starts after a skip by the 31-bit generator, at every scale |
| `CustomerKeys.KeyStream.DssRandom64` | benchmarks/TPC-H_Tools_v3.0.0/dbgen/rng64.c:64-91 | One 64-bit draw: the value it yields and the stream it leaves |
| `Tables.SkipIsBoundary` | benchmarks/TPC-H_Tools_v3.0.0/dbgen/speed_seed.c:159-261 | Every skip multiplier is the boundary of its stream, except that the never-read stream 39 is padded and not skipped, and a lineitem skip moves the two order streams it reads by one |
| `Tables.DeclaredBoundaries` | benchmarks/TPC-H_Tools_v3.0.0/dbgen/rnd.h:58-108 | The boundaries of the 48 streams, as declared one by one |
| `Tables.DeclaredOwners` | benchmarks/TPC-H_Tools_v3.0.0/dbgen/rnd.h:58-108 | The tables of the 48 streams, as declared one by one |
| `Driver.ProcessesEqualOne` | benchmarks/TPC-H_Tools_v3.0.0/dbgen/driver.c:777-797 | The processes of a run, each with its step, from the declared seeds and one stream array for all tables, print together what one process prints; the code tables are printed in full by each |
| `Driver.ForeignRow` | benchmarks/TPC-H_Tools_v3.0.0/dbgen/rnd.c:115-144 | A row moves no stream of another family of tables, so the tables of one process do not disturb each other |
| `Driver.BuildTables` | benchmarks/TPC-H_Tools_v3.0.0/dbgen/driver.c:777-797 | The table loop of main, for every selection, number of processes and step that is not negative: the file of a table is what that table prints by itself from the values the streams had at the start |
| `Driver.BuildTable` | benchmarks/TPC-H_Tools_v3.0.0/dbgen/driver.c:780-796 | One table of main: with several processes its chunk, nothing for step 0 and rows past the table for a step past the last; otherwise all its rows, whatever the step; and where the streams are then |
| `Driver.RowCounts` | benchmarks/TPC-H_Tools_v3.0.0/dbgen/driver.c:789-796 | How many rows one process prints of each of the ten tables |
| `Driver.OddSteps` | benchmarks/TPC-H_Tools_v3.0.0/dbgen/bm_utils.c:559-571 | Of several processes, the one for step 0 prints no chunk, one past the last as many rows as an even chunk has, and each of them the code tables in full |
| `Generator.Dbgen.constructor` | benchmarks/TPC-H_Tools_v3.0.0/dbgen/rnd.h:58-108 | The stream array as declared |
| `Generator.Dbgen.DssRandom` | benchmarks/TPC-H_Tools_v3.0.0/dbgen/rnd.c:96-103 | One draw: the value it yields, by Rnd.UnifIntCell the member whose cell the new stream value lies in, one more use of its stream, all other streams untouched |
| `Generator.Dbgen.RowStart` | benchmarks/TPC-H_Tools_v3.0.0/dbgen/rnd.c:105-113 | Forgets the draws of the previous row and moves no stream |
| `Generator.Dbgen.RowStop` | benchmarks/TPC-H_Tools_v3.0.0/dbgen/rnd.c:115-144 | Brings every padded stream up to its boundary, never back, and moves no other; when boundaries are being calibrated, raises just those the row has exceeded |
| `Generator.Dbgen.RaisedIsMost` | benchmarks/TPC-H_Tools_v3.0.0/dbgen/rnd.c:130-136 | A boundary being calibrated grows to exactly what a row took, if that was more, and never shrinks |
| `Generator.Dbgen.WithinBudget` | benchmarks/TPC-H_Tools_v3.0.0/dbgen/rnd.c:130-136 | The columns of no row exceed a boundary, so calibration raises none of a stream that belongs to a table; it does raise that of stream 5, from which the text pool is generated at the first comment of a process |
| `Generator.Dbgen.ARnd` | benchmarks/TPC-H_Tools_v3.0.0/dbgen/bm_utils.c:178-195 | A random string takes one draw for its length and one for every five characters begun |
| `Generator.Dbgen.PickStr` | benchmarks/TPC-H_Tools_v3.0.0/dbgen/bm_utils.c:224-235 | The member picked by one draw |
| `Build.Pick` | benchmarks/TPC-H_Tools_v3.0.0/dbgen/bm_utils.c:230-233 | It is the first whose cumulative weight reaches the draw |
| `Generator.Dbgen.DbgText` | benchmarks/TPC-H_Tools_v3.0.0/dbgen/text.c:338-341 | Comment text takes two draws, its place in the pool and its length |
| `Generator.Dbgen.MkCust` | benchmarks/TPC-H_Tools_v3.0.0/dbgen/build.c:100-125 | The customer as a function of its index and of the stream values, and the draws taken from every stream |
| `Generator.Dbgen.MkSupp` | benchmarks/TPC-H_Tools_v3.0.0/dbgen/build.c:313-357 | The supplier with the complaint woven into its comment, and the draws taken, which do not depend on whether there is one |
| `Generator.Dbgen.MkPart` | benchmarks/TPC-H_Tools_v3.0.0/dbgen/build.c:271-311 | The part and its four partsupp rows, and the draws taken from every stream |
| `Generator.Dbgen.MkOrder` | benchmarks/TPC-H_Tools_v3.0.0/dbgen/build.c:148-269 | The order and its lines, total and status, and the draws taken, which depend on the lines drawn and returned, at the scales below 30000 |
| `Generator.Dbgen.MkLineDates` | benchmarks/TPC-H_Tools_v3.0.0/dbgen/build.c:233-256 | The dates of a line; the return flag is drawn only by lines received by the current date |
| `Generator.Dbgen.LivingBuyer` | benchmarks/TPC-H_Tools_v3.0.0/dbgen/build.c:180-185 | The loop off the multiples of three ends on a key that is no multiple of three, within 1 .. max if the draw was |
| `Generator.Dbgen.Permute` | benchmarks/TPC-H_Tools_v3.0.0/dbgen/permute.c:95-113 | The in-place loop leaves the arrangement its draws call for |
| `Generator.Dbgen.AggStr` | benchmarks/TPC-H_Tools_v3.0.0/dbgen/bm_utils.c:429-447 | A part name is the first five of a full shuffle of 92 colours, for exactly 92 draws |
| `Generator.Dbgen.MkRow` | benchmarks/TPC-H_Tools_v3.0.0/dbgen/driver.c:309-364 | The row maker of every table, and the draws it takes, for order tables at the scales below 30000 |
| `Generator.Dbgen.GenTbl` | benchmarks/TPC-H_Tools_v3.0.0/dbgen/driver.c:283-373 | The row loop: its output, the update number every row is presented to its loader under, and the stream values it leaves, for every table, first row, count, update number and number of insert segments, for order tables at the scales below 30000; nothing is printed during calibration |
| `Runs.ModesOfRows` | benchmarks/TPC-H_Tools_v3.0.0/dbgen/driver.c:319-361 | Only orders of an update set are presented under segment numbers; other chunked tables under the update number, code tables under 0 |
| `Generator.Dbgen.AdvanceStream` | benchmarks/TPC-H_Tools_v3.0.0/dbgen/speed_seed.c:70-83 | Moves one stream by the given number of draws and no other |
| `Generator.Dbgen.SdPart` | benchmarks/TPC-H_Tools_v3.0.0/dbgen/speed_seed.c:159-171 | Moves every stream by its multiplier for parts times the number of rows |
| `Generator.Dbgen.SdLine` | benchmarks/TPC-H_Tools_v3.0.0/dbgen/speed_seed.c:173-198 | The lineitem skip, seven lines to an order, with or without the two shared order streams |
| `Generator.Dbgen.SdOrder` | benchmarks/TPC-H_Tools_v3.0.0/dbgen/speed_seed.c:200-217 | The order skip |
| `Generator.Dbgen.SdPsupp` | benchmarks/TPC-H_Tools_v3.0.0/dbgen/speed_seed.c:219-232 | The partsupp skip, four rows to a part |
| `Generator.Dbgen.SdCust` | benchmarks/TPC-H_Tools_v3.0.0/dbgen/speed_seed.c:234-245 | The customer skip |
| `Generator.Dbgen.SdSupp` | benchmarks/TPC-H_Tools_v3.0.0/dbgen/speed_seed.c:247-261 | The supplier skip |
| `Generator.Dbgen.SetState` | benchmarks/TPC-H_Tools_v3.0.0/dbgen/bm_utils.c:559-588 | Rows of a step and remainder, and every stream moved past the earlier steps; a step past the last skips the remainder with the table's own routine only; scale or step zero does nothing |
| `Generator.Dbgen.PartialTable` | benchmarks/TPC-H_Tools_v3.0.0/dbgen/driver.c:420-445 | A process prints its chunk, the last one the remainder as well; step 0 prints nothing and a step past the last the rows past the table; order tables at the scales below 30000 |
| `Rnd.NextRandBijective` | benchmarks/TPC-H_Tools_v3.0.0/dbgen/rnd.c:170-182 | The generator is a bijection on 1 .. 2^31-2, undone by the inverse multiplier |
| `Rnd.IterInjective` | benchmarks/TPC-H_Tools_v3.0.0/dbgen/rnd.c:170-182 | Two streams agree after n draws exactly when they agreed before |
| `Rnd.UnifIntRange` | benchmarks/TPC-H_Tools_v3.0.0/dbgen/rnd.c:193-229 | Every draw, in exact arithmetic, lies between its bounds |
| `Rnd.UnifIntCell` | benchmarks/TPC-H_Tools_v3.0.0/dbgen/rnd.c:223-228 | A stream value draws x from its range exactly if it lies in the cell of x, the cells being equally wide and in order |
| `Rnd.UnifIntOnto` | benchmarks/TPC-H_Tools_v3.0.0/dbgen/rnd.c:193-229 | Every member of a range narrower than the modulus is drawn by some stream value |
| `Period.FullPeriod` | benchmarks/TPC-H_Tools_v3.0.0/dbgen/rnd.c:170-182 | A stream is back at its value after n draws exactly when n is a multiple of 2^31-2 |
| `Period.ReachesEveryValue` | benchmarks/TPC-H_Tools_v3.0.0/dbgen/rnd.c:174-177 | The comment's promise that the routine generates all numbers of its range: from any value any other is reached within one cycle |
| `SpeedSeed.NthElement` | benchmarks/TPC-H_Tools_v3.0.0/dbgen/speed_seed.c:112-136 | Square-and-multiply equals N single draws for every N; a count that is not positive moves nothing |
| `Rnd.IterAdd` | benchmarks/TPC-H_Tools_v3.0.0/dbgen/speed_seed.c:91-106 | Skips compose additively |
| `SpeedSeed.ProductFits` | benchmarks/TPC-H_Tools_v3.0.0/dbgen/speed_seed.c:127-132 | No intermediate product reaches 2^62 |
| `Rng64.AdvanceRand64` | benchmarks/TPC-H_Tools_v3.0.0/dbgen/rng64.c:103-140 | The 64-bit jump over the bits of the count ends and equals that many single draws, truncation and signs included |
| `Rng64.ClosedForm` | benchmarks/TPC-H_Tools_v3.0.0/dbgen/rng64.c:113-122 | n draws are A^n times the seed plus 1 + A + ... + A^(n-1), truncated |
| `Rng64.Draw64InRange` | benchmarks/TPC-H_Tools_v3.0.0/dbgen/rng64.c:64-91 | A 64-bit draw lies between its bounds exactly unless the stream holds -4654452103859546277 before the draw and the range width does not divide 2^63 |
| `Rng64.ReduceMagnitude` | benchmarks/TPC-H_Tools_v3.0.0/dbgen/rng64.c:64-91 | A 64-bit draw is the lower bound plus the remainder of the magnitude, negative for the lowest value; its bounds may be given either way round |
| `Rng64.NextRand64Injective` | benchmarks/TPC-H_Tools_v3.0.0/dbgen/rng64.c:93-101 | Different 64-bit stream values stay different |
| `Rng64.CustomerEscapes` | benchmarks/TPC-H_Tools_v3.0.0/dbgen/build.c:176-177 | For every multiple of 150000 customers that one stream value draws a customer below 1 |
| `Shuffle.PermutedKeeps` | benchmarks/TPC-H_Tools_v3.0.0/dbgen/permute.c:95-113 | The shuffle rearranges: nothing lost, added or repeated |
| `Shuffle.ShuffleInjective` | benchmarks/TPC-H_Tools_v3.0.0/dbgen/permute.c:95-113 | On distinct elements two complete draw sequences give the same arrangement exactly when they are equal |
| `Shuffle.ShuffleOnto` | benchmarks/TPC-H_Tools_v3.0.0/dbgen/permute.c:95-113 | Every arrangement comes from some draw sequence |
| `Shuffle.TurnFills` | benchmarks/TPC-H_Tools_v3.0.0/dbgen/permute.c:101-111 | Turn i of the loop puts at i the element its draw points at by then, and later turns leave it there |
| `Bounds.NamesAreDistinct` | benchmarks/TPC-H_Tools_v3.0.0/dbgen/bm_utils.c:429-447 | A part is named after five different colours |
| `Bounds.DatesInTable` | benchmarks/TPC-H_Tools_v3.0.0/dbgen/build.c:233-243 | Every date of every order and line has an entry in the date table, shipping follows ordering and receipt follows shipping |
| `Bounds.LastDayIsReached` | benchmarks/TPC-H_Tools_v3.0.0/dbgen/dss.h:369-371 | The table is not too long: some draws put a receipt on its last day |
| `Bounds.FlagsFollowDates` | benchmarks/TPC-H_Tools_v3.0.0/dbgen/build.c:245-260 | Return flag and line status follow the calendar day of the current date, although the code compares Julian dates |
| `Bounds.BuyersExist` | benchmarks/TPC-H_Tools_v3.0.0/dbgen/build.c:176-185 | Every order belongs to an existing customer whose key is no multiple of three |
| `Bounds.PressFits` | benchmarks/TPC-H_Tools_v3.0.0/dbgen/build.c:330-355 | The words woven into a supplier comment end within it |
| `Bounds.TextInPool` | benchmarks/TPC-H_Tools_v3.0.0/dbgen/text.c:338-341 | Every stretch of comment text lies within the pool |
| `Columns.CustomerColumns` | benchmarks/TPC-H_Tools_v3.0.0/dbgen/build.c:109-122 | Every column of a customer: which values of which stream give which member of which range |
| `Columns.SupplierColumns` | benchmarks/TPC-H_Tools_v3.0.0/dbgen/build.c:325-335 | The same of a supplier |
| `Columns.PressColumns` | benchmarks/TPC-H_Tools_v3.0.0/dbgen/build.c:336-355 | Ten suppliers in 10000 have words woven into their comments, complaints for 50 draws of 101, and where the words stand |
| `Columns.PartColumns` | benchmarks/TPC-H_Tools_v3.0.0/dbgen/build.c:288-299 | Every column of a part; the brand is one of the five of its manufacturer |
| `Columns.NameColumns` | benchmarks/TPC-H_Tools_v3.0.0/dbgen/bm_utils.c:429-447 | Word k of a part name is the colour that draw k of its stream points at, unless an earlier draw pointed there |
| `Columns.PartSuppColumns` | benchmarks/TPC-H_Tools_v3.0.0/dbgen/build.c:301-309 | Every column of the four partsupp rows of a part |
| `Columns.OrderColumns` | benchmarks/TPC-H_Tools_v3.0.0/dbgen/build.c:176-199 | Every drawn column of an order; a customer that is a multiple of three moves up by one, or down by one from the last customer |
| `Columns.OrderOfItsLines` | benchmarks/TPC-H_Tools_v3.0.0/dbgen/build.c:200-266 | An order has one to seven lines, numbered, under its own key; its total is what they charge; its status is filled exactly if all of them have been shipped and open exactly if none has |
| `Columns.LineColumns` | benchmarks/TPC-H_Tools_v3.0.0/dbgen/build.c:206-225 | Part, supplier, quantity, price, discount and tax of a line |
| `Columns.LineDates` | benchmarks/TPC-H_Tools_v3.0.0/dbgen/build.c:213-243 | Shipping, its comment, and the dates of a line counted from the order and from shipping |
| `Columns.LineFlags` | benchmarks/TPC-H_Tools_v3.0.0/dbgen/build.c:245-253 | The return flags of an order are drawn one after the other by the lines that have one |
| `Columns.CodeColumns` | benchmarks/TPC-H_Tools_v3.0.0/dbgen/build.c:430-452 | Nations and regions are numbered from 0, and take two draws a row for their comments |
| `Answers.Order4722021` | benchmarks/TPC-H_Tools_v3.0.0/dbgen/answers/q18.out:2 | From the declared seeds, row 1180509 of the orders of scale 1 is order 4722021 of customer 128120, of 7 April 1994, over 323 pieces for 544089.09, as the distributed answer to query 18 has it |
| `Answers.Customer57040` | benchmarks/TPC-H_Tools_v3.0.0/dbgen/answers/q10.out:2 | Customer 57040 is from nation 12, with the phone, the balance and the lengths of address and comment that the answer to query 10 shows |
| `Answers.Supplier5359` | benchmarks/TPC-H_Tools_v3.0.0/dbgen/answers/q2.out:2 | Supplier 5359 is from nation 23, with the phone, the balance and the lengths of address and comment that the answer to query 2 shows |
| `Answers.Part185358` | benchmarks/TPC-H_Tools_v3.0.0/dbgen/answers/q2.out:2 | Part 185358 is by manufacturer 4, of the size that query 2 asks for, and sold by supplier 5359, as that answer has it |
| `Answers.FirstPart` | benchmarks/TPC-H_Tools_v3.0.0/dbgen/rnd.h:60-97 | The first part from the declared seeds: manufacturer 1, brand 13, size 7, 901.00, goldenrod lavender spring chocolate lace |
| `Keys.FirstPrices` | benchmarks/TPC-H_Tools_v3.0.0/dbgen/build.c:68-78 | Below part 1000 a price is 900 dollars, a dollar for each part and a cent for each ten |
| `Keys.PriceStep` | benchmarks/TPC-H_Tools_v3.0.0/dbgen/build.c:68-78 | A thousand parts on, a price is a dollar higher, or 199.01 lower when the tenths wrap at 20001 |
| `Calendar.ComputeJulian` | benchmarks/TPC-H_Tools_v3.0.0/dbgen/bm_utils.c:253-286 | The loop over years ends and computes the Julian date |
| `Calendar.ComputeUnjulian` | benchmarks/TPC-H_Tools_v3.0.0/dbgen/bm_utils.c:240-251 | The loop over years computes the day number |
| `Calendar.JulianRoundTrip` | benchmarks/TPC-H_Tools_v3.0.0/dbgen/bm_utils.c:240-286 | Every day from the start date on comes back from its Julian date |
| `Calendar.UnjulianRoundTrip` | benchmarks/TPC-H_Tools_v3.0.0/dbgen/bm_utils.c:240-286 | The other way round, exactly for the dates with a day within their year |
| `Calendar.JulianMonotone` | benchmarks/TPC-H_Tools_v3.0.0/dbgen/bm_utils.c:253-286 | Julian dates order days as day numbers do |
| `Calendar.MkTime` | benchmarks/TPC-H_Tools_v3.0.0/dbgen/build.c:408-428 | Row `index` of the time table is a valid date with the Julian date of day `index` |
| `Calendar.DateAfterJulian` | benchmarks/TPC-H_Tools_v3.0.0/dbgen/build.c:359-428 | Consecutive indices are consecutive calendar dates under the leap rule, for ever |
| `Calendar.LeapYears` | benchmarks/TPC-H_Tools_v3.0.0/dbgen/dss.h:401 | Every fourth year is a leap year but the first of each century, the year 2000 included |
| `Calendar.MkAscDate` | benchmarks/TPC-H_Tools_v3.0.0/dbgen/bm_utils.c:534-550 | Entry k of the date table is the date k days after 1 January 1992 |
| `Calendar.LastDay` | benchmarks/TPC-H_Tools_v3.0.0/dbgen/dss.h:410-422 | The table ends on the declared end date |
| `Keys.MacroIsMkSparse` | benchmarks/TPC-H_Tools_v3.0.0/dbgen/dss.h:147-148 | The macro of bit operations equals the function with the generation cut to two bits |
| `Keys.SparseInjective` | benchmarks/TPC-H_Tools_v3.0.0/dbgen/build.c:131-146 | For the generations 0 to 3 a key determines index and generation |
| `Keys.SparseCollides` | benchmarks/TPC-H_Tools_v3.0.0/dbgen/build.c:131-146 | A fifth generation collides with the first, for every index |
| `Refresh.RefreshRuns` | benchmarks/TPC-H_Tools_v3.0.0/dbgen/driver.c:734-765 | Update sets insert only keys never seen, delete only keys present and keep the number of orders, exactly up to set 999 (or when a set has no rows) |
| `Refresh.UpdateShare` | benchmarks/TPC-H_Tools_v3.0.0/dbgen/driver.c:734 | A set is a thousandth of the population exactly when the base count is a multiple of 10000, and less than ten rows per unit of scale short of it otherwise |
| `Refresh.OrdersConserved` | benchmarks/TPC-H_Tools_v3.0.0/dbgen/driver.c:734-765 | After any k <= 999 sets there are as many orders as in the population |
| `Refresh.DeletedOnce` | benchmarks/TPC-H_Tools_v3.0.0/dbgen/print.c:414-418 | No key is deleted by two of the first 999 sets |
| `Refresh.ThousandthSetMisses` | benchmarks/TPC-H_Tools_v3.0.0/dbgen/print.c:414-418 | Set 1000 deletes nothing that is there |
| `RefreshFiles.FilesFit` | benchmarks/TPC-H_Tools_v3.0.0/dbgen/driver.c:752-765 | The same of the generated files themselves, whatever is drawn: orders of set u are new to the generated population and every delete finds its order |
| `RefreshFiles.OrdersKept` | benchmarks/TPC-H_Tools_v3.0.0/dbgen/driver.c:752-765 | Applying the first u pairs of generated files keeps the number of orders |
| `RefreshFiles.SetsReplace` | benchmarks/TPC-H_Tools_v3.0.0/dbgen/driver.c:747-764 | Order by order, set u up to 999 deletes the orders of the population where the sets before it stopped, oldest first, and inserts for each one whose key is 8 higher |
| `RefreshFiles.InsertedKeys` | benchmarks/TPC-H_Tools_v3.0.0/dbgen/driver.c:310-312 | For every set, the key of each inserted order; set numbers count modulo 10000 |
| `RefreshFiles.RowKeys` | benchmarks/TPC-H_Tools_v3.0.0/dbgen/build.c:174-175 | Generated orders carry exactly the keys of their indices and generation |
| `Updates.RunUpdates` | benchmarks/TPC-H_Tools_v3.0.0/dbgen/driver.c:728-768 | The update loop from any step, with one writer of delete files for all sets: the inserts, the numbers they are presented under, and the delete files of every set, as functions of the start values, at the scales below 30000; every set inserts and deletes a thousandth of the orders, when the base count is a multiple of 10000 |
| `Updates.ResumedSetIsSame` | benchmarks/TPC-H_Tools_v3.0.0/dbgen/driver.c:735-747 | A run started at any step produces the same sets as a run started at the first |
| `Updates.UpdatesFollowPopulation` | benchmarks/TPC-H_Tools_v3.0.0/dbgen/driver.c:733 | Updates take up every stream where the population leaves it exactly when the order count is a multiple of 100; otherwise the lineitem streams lag |
| `Updates.UpdatesLag` | benchmarks/TPC-H_Tools_v3.0.0/dbgen/driver.c:480-499 | They do lag for the 14985 orders of two scales given after one another, 0.01 and 0.999: by 595 draws of the quantity stream, in update sets of ten orders |
| `Updates.SetsDrawBeyondPopulation` | benchmarks/TPC-H_Tools_v3.0.0/dbgen/driver.c:730-747 | In that case set u is what further rows of the population's run would draw, after all of the population and all earlier sets |
| `Segments.DeleteKeysAreDeleted` | benchmarks/TPC-H_Tools_v3.0.0/dbgen/print.c:414-438 | The delete file of a set holds the keys the refresh run expects to disappear |
| `InsertSegments.InsertModes` | benchmarks/TPC-H_Tools_v3.0.0/dbgen/driver.c:294-332 | For every update set, row count and number of segments: a row is presented under the number of a segment exactly when it belongs to it, by the balanced split counted from the segment the set number starts in, or one row to a segment where there are fewer rows than segments |
| `InsertSegments.BelongsBalanced` | benchmarks/TPC-H_Tools_v3.0.0/dbgen/driver.c:298-302 | For the sets below 10000 that is the balanced split from the first segment on, however few the rows |
| `InsertSegments.InsertFiles` | benchmarks/TPC-H_Tools_v3.0.0/dbgen/driver.c:294-332 | The rows fit the number of files asked for exactly when the set number is below 10000, or the split is even, or there are fewer rows than files |
| `Updates.InsertsOverflow` | benchmarks/TPC-H_Tools_v3.0.0/dbgen/driver.c:480-499 | With the scale 0.01, set 10000 and three insert files, the last of the ten orders is presented under a number past the third file |
| `InsertSegments.SegmentsCover` | benchmarks/TPC-H_Tools_v3.0.0/dbgen/driver.c:298-302 | The segments follow one another without gaps and cover all rows; the first count mod segments of them hold one row more |
| `Segments.DeleteWriter.PrDrange` | benchmarks/TPC-H_Tools_v3.0.0/dbgen/print.c:392-441 | A set adds exactly the files its keys are cut into, each holding one key more than the even share, whatever sets were written before it |
| `Segments.SplitFits` | benchmarks/TPC-H_Tools_v3.0.0/dbgen/print.c:421-436 | Those files together hold every key once, in order, are no more than asked for, and hold one key more than the even share, the last one excepted |
| `Segments.CutFull` | benchmarks/TPC-H_Tools_v3.0.0/dbgen/print.c:421-436 | All files but the last are full, and if there are keys no file is empty |
| `Suppliers.FourSuppliersExactly` | benchmarks/TPC-H_Tools_v3.0.0/dbgen/build.c:58-63 | With twenty parts to a supplier every part has four different existing suppliers exactly when there are 229 suppliers or more, or at least 80, or 29 for an odd number, and the number is no multiple of three (section 4.2.3 of the TPC-H specification) |
| `SupplierRows.PartsHaveFourSuppliers` | benchmarks/TPC-H_Tools_v3.0.0/dbgen/build.c:301-309 | The same of the generated partsupp rows |
| `Suppliers.FewSuppliersCollide` | benchmarks/TPC-H_Tools_v3.0.0/dbgen/build.c:58-63 | With 40 suppliers they are not |
| `Suppliers.OncePerBlock` | benchmarks/TPC-H_Tools_v3.0.0/dbgen/build.c:58-63 | Within a block of as many parts as suppliers the s-th supplier is a bijection, with its inverse |
| `SupplierRows.EverySupplierIn80Rows` | benchmarks/TPC-H_Tools_v3.0.0/dbgen/build.c:301-309 | Every supplier is named by exactly 80 generated partsupp rows, whatever is drawn |
| `Suppliers.LineHasPartSupp` | benchmarks/TPC-H_Tools_v3.0.0/dbgen/build.c:218-225 | Every generated line names a part and one of that part's generated partsupp rows |
| `Money.TotalPrice` | benchmarks/TPC-H_Tools_v3.0.0/dbgen/build.c:206-231 | The printed total is at most the exact total, less than 2.08 cents a line below it, and fits 32 bits |
| `Money.PrintMoney` | benchmarks/TPC-H_Tools_v3.0.0/dbgen/print.c:129-139 | The text of an amount |
| `Money.MoneyRoundTrip` | benchmarks/TPC-H_Tools_v3.0.0/dbgen/print.c:129-139 | The text determines the amount, negative amounts below a dollar included |
| `Packed.GetIsNibble` | benchmarks/TPC-H_Tools_v3.0.0/dbgen/bcd2.c:37-55 | Masking and shifting reads the digit |
| `Packed.PutIsSet` | benchmarks/TPC-H_Tools_v3.0.0/dbgen/bcd2.c:37-55 | Masking with all digits but one and or-ing replaces one digit and nothing else |
| `Packed.ClearMaskIs` | benchmarks/TPC-H_Tools_v3.0.0/dbgen/bcd2.c:46-53 | The exclusive or in the macro is the mask of all seven digits but one |
| `Bcd2.BinBcd2` | benchmarks/TPC-H_Tools_v3.0.0/dbgen/bcd2.c:56-73 | Packing yields the decimal digits; their value is the number |
| `Bcd2.Bcd2Bin` | benchmarks/TPC-H_Tools_v3.0.0/dbgen/bcd2.c:75-92 | Unpacking a word yields its value |
| `Bcd2.PackThenUnpack` | benchmarks/TPC-H_Tools_v3.0.0/dbgen/bcd2.c:56-92 | Packing a number and unpacking both words gives the number back |
| `Bcd2.UnpackThenPack` | benchmarks/TPC-H_Tools_v3.0.0/dbgen/bcd2.c:56-92 | Unpacking decimal words and packing the number gives the words back |
| `Bcd2.ValueDetermines` | benchmarks/TPC-H_Tools_v3.0.0/dbgen/bcd2.c:56-92 | Packed numbers with equal values have equal digits |
| `Bcd2.Number.Add` | benchmarks/TPC-H_Tools_v3.0.0/dbgen/bcd2.c:94-112 | Old value plus addend is new value plus carry times 10^14; all digits stay decimal |
| `Bcd2.Number.Sub` | benchmarks/TPC-H_Tools_v3.0.0/dbgen/bcd2.c:114-135 | The difference falls short by exactly what the borrow that is never cleared costs, and is right if and only if no digit exceeds the subtrahend's above one that falls short of it |
| `Bcd2.HundredMinusOne` | benchmarks/TPC-H_Tools_v3.0.0/dbgen/bcd2.c:114-135 | 100 - 1 leaves 99999999999099 and a borrow |
| `Bcd2.Number.Mul` | benchmarks/TPC-H_Tools_v3.0.0/dbgen/bcd2.c:137-170 | The product modulo 10^14, and the carry returned, which is that of the last row alone |
| `Bcd2.Number.Div` | benchmarks/TPC-H_Tools_v3.0.0/dbgen/bcd2.c:172-191 | Old value is new value times divisor plus a remainder below the divisor |
| `Sessions.EveryRun` | src/main/java/de/tuberlin/dima/xdbx/user/SimpleUserManager.java:69-113 | In every run of logins, logouts, requests, cleaner checks and clock ticks the queue holds exactly the logged-in users, once each, ordered by last login, and only they own objects |
| `Sessions.CheckCertifies` | src/main/java/de/tuberlin/dima/xdbx/user/SimpleUserManager.java:86-100 | When the head of the queue has logged in at most 60 seconds ago, everybody has |
| `Sessions.CheckIsExact` | src/main/java/de/tuberlin/dima/xdbx/user/SimpleUserManager.java:86-100 | A check leaves the queue alone exactly while the head has logged in at most 60 seconds ago, and takes the head otherwise |
| `Sessions.LoginTimeIsLastHeard` | src/main/java/de/tuberlin/dima/xdbx/user/SimpleUser.java:44-48 | In every run the login time of a user is that of the last login or request, and a user without one has none |
| `Sessions.PassIsExact` | src/main/java/de/tuberlin/dima/xdbx/user/SimpleUserManager.java:85-104 | A cleaner pass ends after at most one check more than there are users and keeps exactly those whose last login is at most 60 seconds before its last check |
| `Sessions.PassKeepsTheRecent` | src/main/java/de/tuberlin/dima/xdbx/user/SimpleUserManager.java:85-104 | So after any run a pass keeps only users last heard of at most 60 seconds before its last check, and logs out only users not heard of since |
| `Sessions.PassTakesFromTheFront` | src/main/java/de/tuberlin/dima/xdbx/user/SimpleUserManager.java:85-104 | A pass logs out a front part of the queue and drops those users' objects, nothing else |
| `Sessions.TranslatesWhatStands` | src/main/java/de/tuberlin/dima/xdbx/connector/SimpleDBManager.java:46-86 | In every run a name translates exactly if its user has registered it in a session that has not ended since, by logout or expiry, and then to what it was registered for last |
| `Sessions.NamesNeedLogin` | src/main/java/de/tuberlin/dima/xdbx/connector/SimpleDBManager.java:81-86 | In every run a name translates only while its user is in the queue |
| `Sessions.AssignedNamesDiffer` | src/main/java/de/tuberlin/dima/xdbx/connector/postgres/PostgresInstance.java:27-34 | No two users, and no two names of a user, share a name in the database |
| `Sessions.NameParts` | src/main/java/de/tuberlin/dima/xdbx/connector/postgres/PostgresInstance.java:27-34 | A name in the database is quoted and shows the user and the requested name |
| `UserManager.SimpleUserManager.LoginUser` | src/main/java/de/tuberlin/dima/xdbx/user/SimpleUser.java:44-48 | login with its hook is a login step and keeps the invariant |
| `UserManager.SimpleUserManager.LogoutUser` | src/main/java/de/tuberlin/dima/xdbx/user/SimpleUserManager.java:74-78 | logout with its hook is a logout step; it reports whether the user was in the queue |
| `UserManager.SimpleUserManager.Authenticate` | src/main/java/de/tuberlin/dima/xdbx/node/NodeServiceGrpc.java:166-187 | A request logs its user in exactly when the name is registered with that password |
| `UserManager.SimpleUserManager.Create` | src/main/java/de/tuberlin/dima/xdbx/node/NodeServiceGrpc.java:56-75 | A create request: its answer, and the step it takes, also when the database refuses |
| `UserManager.SimpleUserManager.TranslateName` | src/main/java/de/tuberlin/dima/xdbx/node/NodeServiceGrpc.java:78-99 | A translate request: its answer in all three cases, and the step it takes |
| `UserManager.SimpleUserManager.Cleanup` | src/main/java/de/tuberlin/dima/xdbx/user/SimpleUserManager.java:85-104 | The nested loops of the cleaner end and are the pass above |
| `UserManager.SimpleUserManager.AddUsers` | src/main/java/de/tuberlin/dima/xdbx/user/SimpleUserManager.java:26-42 | Of two accounts with one name the later password counts; nobody is logged in by it |
| `UserManager.SimpleDBManager.Translate` | src/main/java/de/tuberlin/dima/xdbx/connector/SimpleDBManager.java:81-86 | Looks a name up, leaving an empty entry for a user who had none |
| `UserManager.SimpleDBManager.AddObject` | src/main/java/de/tuberlin/dima/xdbx/connector/SimpleDBManager.java:54-78 | A created object is remembered under the requested name, a refused one is not |

## Left out

- Generator.Dbgen.MkOrder: does not model whole orders from scale 30000 on, where the part keys are drawn by the 64-bit generator and padded by the 31-bit one, in products that overflow; the customer keys, which are not padded, are modelled at every scale in `CustomerKeys`.
- Rnd.UnifIntRange: is about exact fractions; the rounding of floating-point division and the branch for the range (0, MAX_LONG), whose width wraps, are not modelled. For an empty range, which no row maker asks for, the model rounds down where C rounds toward zero. Characters of random strings, the only draws from that range, are kept as the stream values they are cut from.
- Generator.Dbgen.DbgText: the text pool is a fixed string; a comment is its place and length in the pool, not the words.
- Generator.Dbgen.PickStr: distributions are lists of cumulative weights; the files they are read from are not modelled, and a pick is an index.
- Generator.Dbgen.RowStop: says nothing of the warning printed when a boundary is raised.
- Generator.Dbgen.PartialTable: negative steps are not modelled; they would give rows negative indices. Order tables stop below scale 30000, as MkOrder does.
- Generator.Dbgen.MkRow: makes orders below scale 30000 only, as MkOrder does.
- Updates.RunUpdates: stops below scale 30000, as MkOrder does.
- Driver.BuildTable: leaves out negative steps when there are several processes, of which main refuses -1 only.
- Driver.BuildTables: leaves out negative steps when there are several processes.
- Parallel.DrawBudget: does not count the draws from stream 5 that fill the text pool at the first comment of a process (text.c:313), although row_stop matches that stream for tables without a child; where stream 5 stands afterwards is not modelled, and no row reads it.
- Generator.Dbgen.WithinBudget: is about the draws of the columns, so calibration raising the boundary of stream 5 after the text pool has been generated is not modelled.
- Generator.Dbgen.GenTbl: presents rows as values under their numbers; which file a loader opens for a number is not modelled. Order tables stop below scale 30000, as MkOrder does.
- Rng64.AdvanceRand64: takes counts that are not negative; for a negative count the search for the leading bit does not end.
- SpeedSeed.ProductFits: bounds the products of the 31-bit jump only.
- Refresh.RefreshRuns: says of the sets after the first failing one only that the run as a whole is no longer clean.
- CustomerKeys.KeysAgreeExactly: from scale 30000 on names the number of chunks equal to the scale, not all those for which the customers differ.
- RefreshFiles.FilesFit: stops at set 999, since set 1000 fails.
- Calendar.MkTime: dates of orders and lines are indices into the date table that this method fills.
- Money.PrintMoney: leaves out -2^31, whose negation overflows.
- Bcd2.Number.Sub: the remainder and the comparison of packed numbers, which build on it, are not modelled.
- Segments.DeleteWriter.PrDrange: is called with sets of one size, as the update loop does; files are sequences of keys.
- UserManager.SimpleUserManager.Cleanup: is one pass; its steps are atomic. Interleavings within a login, a logout or a request on the unsynchronised queue, and drops that fail, are not modelled.
- UserManager.SimpleDBManager.AddObject: keeps the assigned name only; connectors, connection pools, foreign servers and SQL text are not modelled.
- The truncation of the number of update rows to a C int.
- Files, terminal output and option parsing; query generation and substitution; the unused `fake_a_rnd` and `dump_seeds`.
- The gRPC transport, the JDBC connectors, containers and notebooks.
