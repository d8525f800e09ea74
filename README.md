# Bladed binary result reader, in Dafny

This project models pyBladed's reader for Bladed binary results.

A Bladed run writes its output in groups. Each group has two files:

- a text header `prefix.%NN`, with lines of the form `KEYWORD<whitespace>value`;
- a raw binary payload, which the header names under `FILE`.

The reader has four parts:

- **Keyword tables.** `mandatory_keywords` and `optional_keywords` map each keyword to a conversion name. A third table is their union, `supported_keywords`.
- **Line decoder and header reader.** The decoder splits one line at its first whitespace run into a keyword and the rest. It converts the rest by the keyword's conversion. The reader folds the decoder over the lines of a file. It skips `SkipLine` and the `KeyError` of an unknown keyword. Every other failure ends the read.
- **Dataset lookup.** This is a search over the headers in dictionary order. The first header whose `VARIAB` holds the name decides the result: a column for `NDIMENS` 2, a last-axis plane for `NDIMENS` 3, and an error otherwise.
- **`BladedResult` object.** `scan` finds the header files and reads them into an ordered dictionary, each with an empty `data` slot. `__getitem__` loads the payload into the slot when it is empty. It then cuts the dataset out and empties the slot again when `unload` is set.

Modules:

| module | file | what it holds |
|---|---|---|
| `Outcomes` | outcomes.dfy | `Option`, `Result`, and one `Error` constructor per exception the reader raises |
| `Strings` | strings.dfy | The Python `str` behaviour the decoder relies on: `isspace`, `strip`, `split(maxsplit=1)`, `split()`, `split(' ')`, `replace`, `int()`, the quoted-name `re.findall` and `readlines`. The splits, `split(' ')`, `replace` and `readlines` come with their round trips; `int()` is proved to read back `str()` |
| `Definitions` | definitions.dfy | The three keyword tables as constant maps |
| `Header` | header.dfy | `_parse_header_line` as a function, and `_read_header` as a method with a loop, proved against the fold `HeaderOf` |
| `HeaderCases` | examples_header.dfy | Every line of the decoder's unit tests, with the value or exception they expect |
| `ResourceHeader` | examples_resources.dfy | The literal header of the test resources, read line by line into the expected header |
| `Payload` | payload.dfy | `np.frombuffer`, `reshape` with its rule for one negative (inferred) dimension, and numpy basic slicing `[:, ..., i:i+1]` |
| `Results` | results.dfy | The file system, `glob`, `os.path.join`, the ordered result dictionary, the scan fold, the lookup, the load, the specification function `Access` of one `__getitem__`, and the class `BladedResult` |
| `ResultCases` | results_cases.dfy | The two-dimensional example run carried through glob, lookup, load and access |

Modelling choices:

- **Inputs outside the model become parameters.**
  - The file system is a value: directory listings in listing order, and file contents as bytes.
  - Text-mode decoding is a `TextDecoder` parameter. Universal newlines are modelled explicitly.
  - `float()` is an uninterpreted `FloatParser`.
- **The object's state is class fields.** `BladedResult` holds `headerFileNames` and `results` as fields. `Scan`, `LoadDataset` and `Get` modify them.
- **Each method is proved against a specification function.** `Scan` against `CollectFrom`, `FindDataset` against `Locate`, `LoadDataset` against `LoadArray`, and `Get` against `Access`.
- **The load counter is ghost.** A ghost field `payloadLoads` counts the payload files opened, so the cache behaviour can be stated.
- **Returned data is a value.** A returned array is a copy of the slice, so later changes to the cache cannot alter it.

Behaviour of the code that the model keeps:

- **Blank lines are fatal.** For a blank or whitespace-only header line, `line.split(maxsplit=1)` is empty and `split_str[0]` raises `IndexError`. That exception is not caught, so the header read aborts (`Header.BlankLineFails`).
- **The lookup stops at the first header holding the name.** `_find_dataset` does not pass over headers by their `NDIMENS`. If that header's `NDIMENS` is neither 2 nor 3 it raises `NotImplementedError`, and if it has none, `KeyError` (`Results.LocateFirst`).
- **A length mismatch may fail before the reshape.** If the payload length is not a multiple of the element size, `np.frombuffer` raises first (`BufferSize`). The reshape raises (`ShapeMismatch`) only for a whole number of elements of the wrong count (`ResultCases.LoadCase`).
- **The slot is not always cleared.** When the slicing raises `IndexError` (a 3-D slice on a 2-D payload), the payload stays in the slot even with `unload` set, because line 227 is never reached (`Results.Finish`).

## Model

| member | source | states |
|---|---|---|
| Strings.SplitOnce | pyBladed/results/binary.py:114 | At most two parts. The first is a non-empty token without whitespace. The second, the rest, starts with a non-whitespace character |
| Strings.SplitOnceBlank | pyBladed/results/binary.py:114-119 | The split is empty exactly when the line is whitespace only |
| Strings.SplitOnceTwo | pyBladed/results/binary.py:114-119 | `lead + key + gap + rest` splits into `[key, rest]`, the rest kept verbatim with whatever it ends with |
| Strings.SplitOnceOne | pyBladed/results/binary.py:114-116 | A padded single token splits into that token alone |
| Strings.SplitOnceLead | pyBladed/results/binary.py:114 | Leading whitespace does not change the split |
| Strings.Words | pyBladed/results/binary.py:136 | `split()` gives non-empty tokens without whitespace |
| Strings.WordsSkipSpace | pyBladed/results/binary.py:136 | Leading whitespace adds no token |
| Strings.WordsJoin | pyBladed/results/binary.py:136-138 | Tokens joined by any whitespace separator split back into the same tokens |
| Strings.SplitAt | pyBladed/results/binary.py:129 | `split(' ')` gives at least one piece, and no piece holds a space |
| Strings.JoinSplitAt | pyBladed/results/binary.py:129 | Joining the pieces with the separator rebuilds the text |
| Strings.SplitAtJoin | pyBladed/results/binary.py:129 | Pieces free of the separator, joined with it, split back into the same pieces |
| Strings.Remove | pyBladed/results/binary.py:127 | `replace(c, '')` leaves no `c`, never lengthens, and changes nothing when there is no `c` |
| Strings.RemoveAppend | pyBladed/results/binary.py:127 | Deleting distributes over concatenation |
| Strings.RemoveQuotes | pyBladed/results/binary.py:127 | Deleting the quotes around a quote-free text gives the text |
| Strings.IsSpace | pyBladed/results/binary.py:114 | The whitespace `split` breaks at is never a digit, a sign, an underscore or a quote |
| Strings.Strip | pyBladed/results/binary.py:134 | The stripped text is the part of the text after its leading whitespace, empty exactly for an all-whitespace text, and otherwise neither starts nor ends with whitespace |
| Strings.StripPadded | pyBladed/results/binary.py:134 | `strip()` removes exactly the whitespace padding |
| Strings.IntChar | pyBladed/results/binary.py:134 | `int()` skips a character exactly when it is whitespace other than U+001C..U+001F, and sees a digit exactly where the text has one |
| Strings.IntPadded | pyBladed/results/binary.py:134 | `int()` ignores whitespace it skips on either side, such as a trailing newline |
| Strings.Decimal | pyBladed/results/binary.py:134 | The decimal rendering of `n` is a digit group whose value is `n` |
| Strings.ParseInt | pyBladed/results/binary.py:134 | `int()` accepts only text holding a digit |
| Strings.IntLiteral | pyBladed/results/binary.py:134 | An accepted literal ends with a digit, and its value is negative only after a leading minus |
| Strings.ParseIntDecimal | pyBladed/results/binary.py:134 | `int()` of a decimal rendering, padded with any whitespace `int()` skips, is the number |
| Strings.ParseIntNegative | pyBladed/results/binary.py:134 | The same, with a minus sign |
| Strings.DecimalToken | pyBladed/results/binary.py:136 | A decimal rendering is a single token that `int()` reads back |
| Strings.QuotedNames | pyBladed/results/binary.py:132 | Every name found is non-empty and made of `[\w\s\-()/.]` characters |
| Strings.QuotedNamesSkip | pyBladed/results/binary.py:132 | Text without a quote contributes no name |
| Strings.QuotedNamesHead | pyBladed/results/binary.py:132 | A quoted name at the front is the first name found, and the scan resumes after its closing quote |
| Strings.QuotedNamesOfList | pyBladed/results/binary.py:132 | Names, each in quotes and separated by spaces, are found again, in order |
| Strings.Lines | pyBladed/results/binary.py:80-81 | No line holds a newline |
| Strings.LinesUnlines | pyBladed/results/binary.py:80-81 | The lines of a file written line by line are those lines |
| Definitions.MandatoryKeys | pyBladed/results/bladed_definitions.py:5-18 | The mandatory table holds exactly the twelve keywords FILE through VARUNIT |
| Definitions.MandatorySize | pyBladed/results/bladed_definitions.py:5-18 | It has twelve entries |
| Definitions.OptionalKeys | pyBladed/results/bladed_definitions.py:20-32 | The optional table holds exactly the eleven keywords AXIVAL through VARSCALE |
| Definitions.OptionalSize | pyBladed/results/bladed_definitions.py:20-32 | It has eleven entries |
| Definitions.Disjoint | pyBladed/results/bladed_definitions.py:5-32 | The two tables share no keyword |
| Definitions.SupportedIsDisjointUnion | pyBladed/results/bladed_definitions.py:35 | The union has the keys of both tables and 23 entries, and each keyword keeps its own table's conversion |
| Definitions.SupportedEntry | pyBladed/results/bladed_definitions.py:35 | A mandatory keyword keeps its conversion in the union |
| Definitions.SupportedKindsHandled | pyBladed/results/bladed_definitions.py:5-35 | Every conversion the union names is one of the nine the decoder implements |
| Definitions.KeyKinds | pyBladed/results/bladed_definitions.py:5-32 | FILE string, RECL int, FORMAT numpy-dtype, CONTENT string-remove, NDIMENS int, DIMENS int-list, VARIAB string-list-remove, VARUNIT string-list, MIN float, AXIVAL float-list |
| Header.Convert | pyBladed/results/binary.py:136-138 | A list comprehension of a conversion succeeds exactly when every token converts, with one value per token. Otherwise it raises the error of the first token that does not convert |
| Header.Ints | pyBladed/results/binary.py:136 | The same for `int()`: the error names the first token `int()` rejects |
| Header.Floats | pyBladed/results/binary.py:138 | The same for `float()` |
| Header.DTypeOf | pyBladed/results/binary.py:141-149 | `R*4` gives `<f4`, `R*8` gives `<f8`, `I*4` gives `<i4`, in both directions. Anything else is the ValueError naming the rest |
| Header.Decode | pyBladed/results/binary.py:124-151 | A decoded value has the shape its conversion produces. The unknown-conversion error occurs exactly for a conversion outside the nine, and names it |
| Header.ParseHeaderLine | pyBladed/results/binary.py:98-153 | A decoded line's keyword is in the table, and its value fits the keyword's conversion |
| Header.BlankLineFails | pyBladed/results/binary.py:114-119 | The IndexError occurs exactly for a whitespace-only line |
| Header.ParseKeywordLine | pyBladed/results/binary.py:114-153 | A known keyword, a whitespace run and a rest: the rest goes to the keyword's conversion, and its error is the line's error |
| Header.ParseSingleToken | pyBladed/results/binary.py:114-116 | A single-token line is SkipLine |
| Header.ParseUnknownKeyword | pyBladed/results/binary.py:118-123 | A keyword outside the table is the KeyError, whatever follows |
| Header.SupportedNeverUnknownKind | pyBladed/results/binary.py:150-151 | With the union table no line fails with the unknown-conversion error |
| Header.DecodeQuoted | pyBladed/results/binary.py:126-127 | `string-remove` of a quoted quote-free text is the text |
| Header.DecodeSpaced | pyBladed/results/binary.py:128-129 | `string-list` of space-joined pieces is the pieces |
| Header.DecodeQuotedList | pyBladed/results/binary.py:130-132 | `string-list-remove` of a quoted list is its names |
| Header.DecodeInt | pyBladed/results/binary.py:133-134 | `int` of a decimal padded with whitespace `int()` skips is its value |
| Header.DecodeInts | pyBladed/results/binary.py:135-136 | `int-list` of decimals joined by whitespace is their values |
| Header.DecodeReals | pyBladed/results/binary.py:137-138 | `float-list` of tokens joined by whitespace is their parsed values |
| Header.FoldStep | pyBladed/results/binary.py:85-93 | A failing line ends the fold with its error. A skipped line leaves the header as it is. A decoded line overwrites its keyword |
| Header.ReadHeader | pyBladed/results/binary.py:64-95 | The loop returns `HeaderOf` of the file's lines |
| Header.FoldLast | pyBladed/results/binary.py:83-93 | Without a failing line, each keyword holds its last decoded value, or its earlier value when no line decodes it |
| Header.HeaderKeepsLastValue | pyBladed/results/binary.py:83-95 | Without a failing line the header holds exactly the keywords some line decodes, each with the last such value |
| Header.Fold | pyBladed/results/binary.py:84-95 | The fold succeeds exactly when no line fails, and keeps every keyword it started with |
| Header.HeaderOf | pyBladed/results/binary.py:80-95 | The read succeeds exactly when no line of the file fails |
| Header.FoldFirstFailure | pyBladed/results/binary.py:85-93 | A failed fold reports the first failing line's error |
| Header.HeaderFailsAtFirstFailure | pyBladed/results/binary.py:83-95 | A failed read fails with the error of the first failing line |
| Header.FoldAppend | pyBladed/results/binary.py:83-93 | Folding a concatenation is folding the second part from where the first left off |
| Header.FoldSkipped | pyBladed/results/binary.py:88-93 | A skipped outcome anywhere changes nothing |
| Header.SkippedLineIsIgnored | pyBladed/results/binary.py:88-93 | Inserting a skipped line anywhere in a file leaves the header unchanged |
| Header.FoldWellTyped | pyBladed/results/binary.py:83-93 | The fold keeps every value fitting its keyword's conversion |
| Header.HeaderWellTyped | pyBladed/results/binary.py:83-95 | Every value of a read header fits its keyword's conversion |
| HeaderCases.KnownKeyword | pyBladed/results/binary.py:118-153 | A line of a known keyword is decoded, or fails, as its conversion of the rest says |
| HeaderCases.Four | pyBladed/results/tests/test_binary_reader.py:30-32 | `int` of `4` is 4 |
| HeaderCases.FourNewline | pyBladed/results/tests/test_binary_reader.py:34-36 | `int` of `4\n` is 4 |
| HeaderCases.FourSeparator | pyBladed/results/binary.py:133-134 | `int` of `4` and a no-break space is 4, but `4` and U+001C is the ValueError |
| HeaderCases.OneTwo | pyBladed/results/tests/test_binary_reader.py:83-86 | `int-list` of `1 2` is `[1, 2]` |
| HeaderCases.Powprod | pyBladed/results/tests/test_binary_reader.py:94-96 | `string-remove` of `'POWPROD'` is `POWPROD` |
| HeaderCases.Units | pyBladed/results/tests/test_binary_reader.py:99-101 | `string-list` of `FL P P` is `['FL', 'P', 'P']` |
| HeaderCases.Variables | pyBladed/results/tests/test_binary_reader.py:104-108 | The VARIAB rest gives the three variable names |
| HeaderCases.Axis | pyBladed/results/tests/test_binary_reader.py:116-119 | The AXIVAL rest gives the two parsed numbers |
| HeaderCases.NotKeyword | pyBladed/results/tests/test_binary_reader.py:60-61 | `A` is not in the union table |
| HeaderCases.FormattingFor | pyBladed/results/tests/test_binary_reader.py:22-44 | For any table giving the tested kinds, RECL after a tab, tab and spaces, or a space is 4, with or without a trailing newline |
| HeaderCases.FailuresFor | pyBladed/results/tests/test_binary_reader.py:47-65 | For any such table, `ABC` is SkipLine, `A B` the KeyError and `FORMAT X` the ValueError |
| HeaderCases.SingleTokenFor | pyBladed/results/tests/test_binary_reader.py:56-57 | `ABC` is SkipLine under any table |
| HeaderCases.UnknownKeywordFor | pyBladed/results/tests/test_binary_reader.py:60-61 | `A B` is the KeyError under any table without `A` |
| HeaderCases.UnknownCodeFor | pyBladed/results/tests/test_binary_reader.py:64-65 | `FORMAT X` is the ValueError when FORMAT is `numpy-dtype` |
| HeaderCases.NumericFor | pyBladed/results/tests/test_binary_reader.py:83-136 | `DIMENS 1 2` and the three FORMAT codes decode as the tests expect |
| HeaderCases.TextFor | pyBladed/results/tests/test_binary_reader.py:89-96 | FILE is kept verbatim, and CONTENT loses its quotes |
| HeaderCases.ListsFor | pyBladed/results/tests/test_binary_reader.py:99-108 | VARUNIT and VARIAB decode to their lists |
| HeaderCases.MinFor | pyBladed/results/tests/test_binary_reader.py:111-113 | MIN after a space and a tab is the parsed number |
| HeaderCases.AxisFor | pyBladed/results/tests/test_binary_reader.py:116-119 | AXIVAL gives both parsed numbers |
| HeaderCases.TypeFailureFor | pyBladed/results/tests/test_binary_reader.py:142-154 | For any table, `FORMAT I*3` is the ValueError when FORMAT is `numpy-dtype`, and the unknown-conversion error when its conversion is not implemented |
| HeaderCases.FormatLine | pyBladed/results/binary.py:118-153 | The FORMAT line of any table is decoded by that table's FORMAT conversion |
| HeaderCases.BadCodeFor | pyBladed/results/tests/test_binary_reader.py:150-151 | `FORMAT I*3` is the ValueError |
| HeaderCases.NoConversionFor | pyBladed/results/tests/test_binary_reader.py:153-154 | A FORMAT conversion outside the nine is the unknown-conversion error |
| HeaderCases.ParseHeaderLineFormatting | pyBladed/results/tests/test_binary_reader.py:22-44 | With the union table, every whitespace variant of `RECL 4` decodes to RECL = 4 |
| HeaderCases.ParseHeaderLineFailures | pyBladed/results/tests/test_binary_reader.py:47-65 | With the union table: SkipLine, KeyError and ValueError, as the test expects |
| HeaderCases.ParseHeaderLineTypes | pyBladed/results/tests/test_binary_reader.py:68-139 | With the union table, one line of each of the nine conversions decodes to the expected value |
| HeaderCases.ParseHeaderLineTypeFailure | pyBladed/results/tests/test_binary_reader.py:142-154 | `I*3` is the ValueError. A table with `NON_EXISTING_METHOD` gives the NotImplementedError |
| HeaderCases.UnknownConversion | pyBladed/results/tests/test_binary_reader.py:153-154 | The table `{FORMAT: NON_EXISTING_METHOD}` gives the NotImplementedError |
| ResourceHeader.ResourceTextLines | pyBladed/results/tests/resources.py:5-32 | The resource text reads back as its 27 lines |
| ResourceHeader.SupportedUnknowns | pyBladed/results/tests/resources.py:24-32 | The load-summary keywords and the continuation numbers are not in the union table |
| ResourceHeader.SupportedResourceKinds | pyBladed/results/bladed_definitions.py:5-35 | The union table gives every keyword of the resource file the conversion the file needs |
| ResourceHeader.ResourceHeaderFor | pyBladed/results/tests/resources.py:5-53 | For any table with those conversions, the 27 lines read without failure into the expected header |
| ResourceHeader.ReadResourceHeader | pyBladed/results/tests/test_binary_reader.py:157-168 | `_read_header` of the resource text with the union table gives the expected header |
| ResourceHeader.ResourceHeaderContents | pyBladed/results/tests/test_binary_reader.py:166-168 | The expected header holds every mandatory keyword, DIMENS `[3, 20001]`, NDIMENS 2, the three names, FORMAT `<f4` and FILE |
| Payload.FromBuffer | pyBladed/results/binary.py:198-199 | Succeeds exactly for a whole number of elements. Element `i` is bytes `i*size` to `(i+1)*size`. Otherwise it is the ValueError |
| Payload.FromBufferKeepsBytes | pyBladed/results/binary.py:198-199 | The elements hold exactly the buffer's bytes, in order |
| Payload.Reversed | pyBladed/results/binary.py:195 | Element `i` is element `n-1-i` of the input |
| Payload.VolumeReversed | pyBladed/results/binary.py:195 | Reversing DIMENS keeps the cell count |
| Payload.ReshapeTarget | pyBladed/results/binary.py:199 | A shape found has one entry per dimension, and its dimensions multiply to the element count |
| Payload.Reshape | pyBladed/results/binary.py:199 | A reshaped array keeps the elements and has as many axes as asked. A failure is the ValueError |
| Payload.ReshapeExact | pyBladed/results/binary.py:199 | Without negative dimensions the reshape succeeds exactly when they multiply to the count, and then keeps them |
| Payload.CountUnknown | pyBladed/results/binary.py:199 | No dimension is left to infer exactly when none is negative |
| Payload.ReshapeInfers | pyBladed/results/binary.py:199 | A single negative dimension, `-1` or any other, is the count divided by the other dimensions, and the reshape succeeds exactly when they divide it |
| Payload.ReshapeRejects | pyBladed/results/binary.py:199 | Two or more negative dimensions are the ValueError |
| Payload.Cut | pyBladed/results/binary.py:223 | `a[:,...,i:i+1]` succeeds exactly with fewer leading slices than axes. The cut axis keeps one position, or none past its end. Otherwise it is the IndexError |
| Payload.CutColumn | pyBladed/results/binary.py:174-176 | The 2-D cut has shape `[rows, 1]`, and row `r` holds element `[r, i]` of the array |
| Payload.CutLast | pyBladed/results/binary.py:177-179 | The 3-D cut has shape `[p, q, 1]` and holds element `[x, y, i]` at `[x, y, 0]` |
| Payload.CutPastEnd | pyBladed/results/binary.py:223 | A position past the cut axis gives an empty array |
| Results.GlobInMembers | pyBladed/results/binary.py:53-54 | The paths are exactly the matching names, joined to the directory |
| Results.JoinPath | pyBladed/results/binary.py:53 | An absolute name is the path itself; otherwise the path is the directory, at most one `/`, and the name |
| Results.Matches | pyBladed/results/binary.py:53-54 | A name matches `prefix.%*` exactly when it is the prefix, `.%` and anything |
| Results.GlobIn | pyBladed/results/binary.py:54 | The matching finds at most one path per listed name |
| Results.Glob | pyBladed/results/binary.py:53-54 | The scan's paths are exactly the directory's names matching `prefix.%*`, joined to it; a missing directory gives none |
| Results.Universal | pyBladed/results/binary.py:59 | Text read in text mode has no carriage return |
| Results.UniversalPlain | pyBladed/results/binary.py:59 | Text without carriage returns reads unchanged |
| Results.UniversalIdempotent | pyBladed/results/binary.py:59 | Newline translation twice is translation once |
| Results.ReadText | pyBladed/results/binary.py:59-60 | A missing file is exactly the FileNotFoundError. Text read contains no carriage return |
| Results.HeaderFile | pyBladed/results/binary.py:59-60 | A header read from a file fits the union table |
| Results.Insert | pyBladed/results/binary.py:60 | `d[k] = e` keeps the dictionary well formed. A new key goes last, and an existing key keeps its place |
| Results.CollectFrom | pyBladed/results/binary.py:57-61 | The scan loop keeps the dictionary well formed |
| Results.FreshInsert | pyBladed/results/binary.py:60-61 | Entering a header as read with an empty slot keeps every entry fresh |
| Results.CollectSucceeds | pyBladed/results/binary.py:57-61 | The loop succeeds exactly when every file reads. The dictionary then holds the old and the new names, each fresh |
| Results.CollectOutcome | pyBladed/results/binary.py:58-60 | The loop stops at the first file that cannot be read |
| Results.CollectContents | pyBladed/results/binary.py:58-61 | After a successful loop: the keys and freshness together |
| Results.CollectDomain | pyBladed/results/binary.py:58-60 | After a successful loop, the keys are the old ones and the names |
| Results.CollectFresh | pyBladed/results/binary.py:58-61 | After a successful loop, every entry holds its header as read and no payload |
| Results.CollectKeys | pyBladed/results/binary.py:57-60 | With no name twice, the keys are the old keys followed by the names, in scan order |
| Results.ScanEntries | pyBladed/results/binary.py:53-61 | Success exactly when every file reads. Then one entry per file, each holding its header and `data` None, keys in scan order |
| Results.IndexOf | pyBladed/results/binary.py:175 | `index` is the first position of the name |
| Results.Probe | pyBladed/results/binary.py:171-181 | A header answers exactly when it holds the name. NDIMENS 2 gives the column slicing at the first index. NDIMENS 3 gives the last-axis slicing. Anything else is an error other than not-found |
| Results.LocateIn | pyBladed/results/binary.py:170-183 | A header found is among those searched, and its probe gave the slicing |
| Results.Locate | pyBladed/results/binary.py:170-183 | A header found is in the dictionary, and its probe gave the slicing |
| Results.LocateInFirst | pyBladed/results/binary.py:170-182 | The first header holding the name decides |
| Results.LocateInMissing | pyBladed/results/binary.py:170-183 | Not found exactly when no header searched holds the name |
| Results.LocateFirst | pyBladed/results/binary.py:170-182 | The first header in dictionary order holding the name decides, slicing or error, and later headers are not consulted |
| Results.LocateMissing | pyBladed/results/binary.py:183 | The KeyError occurs exactly when no header holds the name |
| Results.LoadArray | pyBladed/results/binary.py:194-199 | A load opens FILE next to the headers. It gives a well-formed array with one axis per DIMENS entry, holding exactly the file's bytes |
| Results.LoadExact | pyBladed/results/binary.py:194-199 | The load succeeds exactly when the file exists and has cells times element size bytes. The shape is then DIMENS reversed |
| Results.LoadLayout2 | pyBladed/results/binary.py:195-199 | DIMENS `[cols, rows]` gives a `rows` by `cols` array, with element `[r][c]` at flat position `r*cols + c` |
| Payload.Offset | pyBladed/results/binary.py:199 | The row-major position of an index inside the shape lies inside the array |
| Results.Loaded | pyBladed/results/binary.py:219-220 | A filled slot is used as it is, and an empty one is loaded |
| Results.Finish | pyBladed/results/binary.py:223-232 | After the payload is at hand only the decided entry changes, and its header stays |
| Results.Access | pyBladed/results/binary.py:201-232 | A not-found access changes nothing and opens nothing. Otherwise only the entry found changes, its header stays, and at most one file is opened |
| Results.LocateInHeaders | pyBladed/results/binary.py:170-183 | The search reads headers only |
| Results.LocateHeaders | pyBladed/results/binary.py:170-183 | Loading or dropping payloads does not change where a dataset is found |
| Results.AccessRetains | pyBladed/results/binary.py:219-227 | Without unload, after a successful access the slot is filled. The same access again opens nothing and returns the same data |
| Results.RetainReadsOnce | pyBladed/results/binary.py:219-220 | Without unload, a second dataset of the same header opens no file |
| Results.AccessUnloads | pyBladed/results/binary.py:226-227 | With unload, the slot is empty after a successful access. From an empty slot the dictionary is unchanged and exactly one file was opened |
| Results.AccessLoaded | pyBladed/results/binary.py:219-223 | Once the payload is at hand, the access is the `Finish` step |
| Results.AccessFresh | pyBladed/results/binary.py:219-227 | From an empty slot one file is opened. The slot then holds the payload, or nothing with unload, and no other entry changes |
| Results.FinishColumn | pyBladed/results/binary.py:229-232 | For NDIMENS 2 only the cut column comes back |
| Results.FinishPlane | pyBladed/results/binary.py:229-230 | For NDIMENS 3 the cut comes back with the header entry |
| Results.AccessColumn | pyBladed/results/binary.py:223-232 | A 2-D dataset is the payload's column `i`, without the header |
| Results.AccessPlane | pyBladed/results/binary.py:223-230 | A 3-D dataset is the last-axis plane `i`, with the header entry |
| Results.BladedResult.constructor | pyBladed/results/binary.py:26-44 | Directory, prefix and unload are kept, and nothing is scanned yet |
| Results.BladedResult.Scan | pyBladed/results/binary.py:46-61 | The header file names become the glob. No match is the FileNotFoundError with the dictionary untouched. Otherwise `results` is the scan fold of the glob |
| Results.BladedResult.FindDataset | pyBladed/results/binary.py:155-183 | The search loop returns `Locate`, or the error of an unscanned object |
| Results.BladedResult.LoadDataset | pyBladed/results/binary.py:185-199 | A successful load fills only this slot with the loaded array. A failed one leaves `results` as it was. A file opened counts one load |
| Results.BladedResult.Get | pyBladed/results/binary.py:201-232 | The result, the new dictionary and the loads counted are those of `Access` |
| ResultCases.GlobCase | pyBladed/results/binary.py:53-54 | Of the run's header, its payload and another run's header, only the first matches |
| ResultCases.One | pyBladed/results/binary.py:57-61 | A dictionary of one header is well formed |
| ResultCases.LocateOne | pyBladed/results/binary.py:170-183 | In a 2-D header, a listed name gives its column, and any other name is the KeyError |
| ResultCases.ResourceIsRun | pyBladed/results/tests/resources.py:5-32 | The resource header has the run's FILE, FORMAT, DIMENS, VARIAB and NDIMENS |
| ResultCases.LocateCase | pyBladed/results/binary.py:170-183 | `Electrical power` is column 1. `Rotor speed` is the KeyError |
| ResultCases.LoadCase | pyBladed/results/binary.py:194-199 | The load succeeds exactly with 240012 bytes, as a 20001 by 3 array. 240011 bytes is the frombuffer error, and 240000 the reshape error |
| ResultCases.AccessCase | pyBladed/results/binary.py:201-232 | `result['Electrical power']` is column 1 of the payload |
| ResultCases.AccessCaseState | pyBladed/results/binary.py:219-227 | That access opens the payload once, and the slot keeps it only without unload |
| ResultCases.ColumnCase | pyBladed/results/binary.py:223 | The column holds the second value of every row |
| ResultCases.NegativeDimension | pyBladed/results/binary.py:195-199 | A DIMENS of `3 -2` over six elements loads as two rows of three |

## Left out

- Floating point: `float()` is an uninterpreted parser parameter, so the numbers a float line gives are not modelled.
- Element values: `np.frombuffer` is modelled down to the bytes of each element. Little-endian IEEE and int32 decoding are not modelled.
- Text encoding: `open()` in text mode decodes through a decoder parameter (`None` is a UnicodeDecodeError). Only universal newlines are modelled.
- Glob metacharacters: a prefix or directory containing `*`, `?` or `[` is taken literally. The order `glob` returns is taken to be the directory's listing order.
- Glob subdirectories: a prefix containing `/` makes `glob` look for the names in a subdirectory of the result directory. The model matches the whole prefix against the names of the result directory itself, so such a prefix finds nothing.
- `os.path.join` is modelled for POSIX only.
- `np.copy` and aliasing: arrays and header dictionaries are values. A returned header is the entry as the access left it, and no later change can reach it.
- MemoryError and the large-file test: they are not statable; only the unload policy they motivate is modelled.
- `pyBladed/model/BladedAPI.py` is a pass-through to a .NET library and is not part of this model; neither is `setup.py`.
- A keyword table changed after construction: the class always decodes with the union table. The line decoder and the header reader take any table.
- The regular-expression class `\w` is taken as its ASCII part (letters, digits, `_`). Non-ASCII letters are not name characters here.
- `unload` is a `bool`. The source tests `self.unload is True`, so a truthy non-bool value such as `1` would behave like False; this is not modelled.
- Header values of an unexpected kind. `HeaderWellTyped` shows that none can arise from a header read with the union table; they arise only under another table.
  - A FILE that is not a text, a DIMENS that is not a list of integers, a FORMAT that is not a type code and a VARIAB that is a single number all make Python raise `TypeError`; the model gives `WrongType`.
  - A VARIAB that is a list of numbers holds no name, and the search goes on past it, in Python and in the model (`Results.Holds`).
  - Results.Holds: a VARIAB that is a text or a type code (a `str` in Python) is searched by Python for the name as a substring, and `str.index` then gives the slice position. The model instead stops the search there with `WrongType`.
- A float NDIMENS equal to 2.0 or 3.0 compares equal in Python. It is modelled (`DimsAre`), but no header read with the union table can produce it.
- Strings.ParseInt: int parsing covers ASCII digits, single underscores and a sign. Non-ASCII decimal digits, which CPython's `int()` translates to ASCII digits, are read as rejected characters instead.
- Strings.ParseInt: the limit on the number of digits `int()` converts (4300 by default since CPython 3.11, a ValueError beyond it) is not modelled; the model reads numbers of any length.
- Payload.Reshape: dimensions are unbounded integers. numpy's ValueError when the product of the known dimensions overflows its index type, and Python's error for a dimension beyond that type, are not modelled.
- The expected dictionary in the test resources (`FORMAT: ''`, `AXIMETH:` with a colon) is not what the reader produces. The model states the header the reader actually builds (`ResourceHeader.ResourceHeaderFor`).
