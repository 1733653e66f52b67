# autocxx core: binding-item naming, conversion errors and the build-script driver

This project is a Dafny model of two small parts of autocxx, a generator of
safe Rust/C++ bindings. It states and proves properties of both.

- **Binding items and conversion errors** (`ConversionApi`, `conversion_api.dfy`).
  An `Api` is one candidate binding found in bindgen's output. It has a C++
  namespace, an identifier and a `Use` classification: unused, used, or used
  under an alias. It also has an optional allow-list override identifier, a
  dependency set of `TypeName`s and several syntax fragments, which are kept
  opaque. `Typename` gives the item's own `(namespace, name)` key.
  `TypenameForAllowlist` gives the key exported to the allow-list, by this
  precedence: the override, then the alias, then the identifier.
  `ConvertError` is the closed set of conversion failures, and `Display` gives
  each one's message.
- **The build-script driver** (`GenBuild`, `gen_build.dfy`). `Builder.New`
  creates a temporary directory, then reads and parses a Rust file, in that
  order (gen/build/src/lib.rs:63-70). It then walks the file's top-level
  items. For each `include_cxx!` macro, in order, it:
  1. parses the macro;
  2. adds the macro's include directory to the C++ build;
  3. generates the C++;
  4. writes it to `gen{counter}.cxx` in the temporary directory;
  5. adds that file to the build.

  The first failure is returned. If no macro matched, the result is
  `NoIncludeCxxMacrosFound`. The C++ build configuration (`cc::Build`) is the
  class `Build`, which holds the C++ flag, the include directories and the
  files. `Builder.FetchBuild` hands that object out for further mutation.

Every external step is an oracle in the `Env` datatype: creating the
temporary directory, reading the file, parsing it with syn, parsing a macro,
generating C++, creating a file and writing it. `Builder.New` is proved
against the specification function `Expected`. It fails exactly when
`Expected` fails, with the same error. On success it builds exactly the
include directories and files that `Expected` lists. Its loop, `AddAll`, is
proved the same way against `Scan`, and the work for one macro, `AddMacro`,
against `Step`. The lemmas then prove the following about `Expected`:

- the order in which failures are checked;
- fail-fast processing, where the first failing macro decides the error;
- the success condition: at least one `include_cxx` macro, and every macro's
  step succeeds;
- the "no macros" condition, which holds exactly when no item is an
  `include_cxx` macro;
- that other items are skipped;
- file naming: the k-th file is `gen{k}.cxx` inside the temporary directory,
  where `{k}` is the decimal notation of k, and all names are distinct.

The longer message texts of `ConvertError` are built from pieces that begin
with a short leading phrase. The three "unexpected code" messages are each a
shared leading sentence, their own middle part and a shared closing hint. The
`this` message is a single literal. The pieces concatenate to exactly the
source's messages.

## Model

| member | source | states |
|---|---|---|
| `ConversionApi.Typename` | engine/src/conversion/api.rs:74-76 | The item's key is built in the item's own namespace |
| `ConversionApi.TypenameIdentifies` | engine/src/conversion/api.rs:74-76 | Two items have the same key exactly when they have the same namespace and the same identifier |
| `ConversionApi.TypenameForAllowlist` | engine/src/conversion/api.rs:78-87 | The allow-list key keeps the item's namespace. An explicit override wins whatever the `Use` is. Without one, a `UsedWithAlias` alias is used. With neither, the key is the item's own `Typename` |
| `ConversionApi.AllowlistPrecedence` | engine/src/conversion/api.rs:79-86 | The allow-list name is the first present entry of the list [override, alias, identifier], and such an entry always exists |
| `ConversionApi.KeysIgnorePayload` | engine/src/conversion/api.rs:60-87 | Both keys depend only on namespace, identifier, `Use` and override. Dependencies and syntax fragments never affect them |
| `ConversionApi.AllowlistKeyDiffersOnlyWhenRenamed` | engine/src/conversion/api.rs:78-87 | If the allow-list key differs from the item's own key, the item has an override or an alias |
| `ConversionApi.Display` | engine/src/conversion/api.rs:33-46 | Every error has a non-empty message. The first character separates the no-content, unsafe-POD, typedef and `this` errors from each other and from the three "unexpected code" errors. `DisplayEmbedsPayload` and `DisplayInjective` state the rest |
| `ConversionApi.DisplayEmbedsPayload` | engine/src/conversion/api.rs:37-41 | The `UnsafePODType` message is exactly its fixed sentence followed by the payload. The `ComplexTypedefTarget` message is exactly its fixed prefix, then the payload, then a final period |
| `ConversionApi.DisplayInjective` | engine/src/conversion/api.rs:33-46 | `Display` is injective. The five payload-free variants have pairwise distinct messages, no message of one variant equals a message of another, and different payloads give different messages |
| `GenBuild.Join` | gen/build/src/lib.rs:105 | The joined path is the directory's components followed by the file name |
| `GenBuild.NatToString` | gen/build/src/lib.rs:81 | The decimal rendering of the counter is all digits, has one digit exactly when the counter is below ten, and has no leading zero. `NatToStringValue` states that it denotes the counter |
| `GenBuild.GenName` | gen/build/src/lib.rs:81 | The name of the file for the counter-th macro, `format!("gen{}.cxx", counter)`. `GenNameShape` states its form and `GenNameInjective` that distinct counters give distinct names |
| `GenBuild.GenNameShape` | gen/build/src/lib.rs:81 | The file name of the counter-th macro is `gen`, then the counter's decimal rendering, then `.cxx` |
| `GenBuild.NatToStringValue` | gen/build/src/lib.rs:81 | The rendering of the counter reads back as the counter under `DecimalValue`, an independent most-significant-digit-first reading of decimal digits. So `gen{k}.cxx` names the number k |
| `GenBuild.NatToStringInjective` | gen/build/src/lib.rs:81 | Different counters are rendered as different decimal strings |
| `GenBuild.GenNameInjective` | gen/build/src/lib.rs:81-82 | `gen{i}.cxx` and `gen{j}.cxx` are equal only when i = j |
| `GenBuild.WriteToFile` | gen/build/src/lib.rs:104-109 | The write succeeds exactly when both creating and writing the file succeed. Its result is then the temporary directory joined with the file name. A creation failure returns the creation's error. If creation succeeds and the write fails, the result is the write's own error |
| `GenBuild.Step` | gen/build/src/lib.rs:75-85 | Any failure of one macro's processing is `MacroParseFail`, `InvalidCxx` or `FileWriteFail` |
| `GenBuild.StepCases` | gen/build/src/lib.rs:75-85 | A macro-parse failure gives `MacroParseFail` with the parse error. If the parse succeeds and generation fails, the result is `InvalidCxx` with the generator's message. If both succeed and writing `gen{k}.cxx` fails, the result is `FileWriteFail` with the write error. If all three succeed, the step succeeds and yields the macro's include directory and the path `gen{k}.cxx` in the temporary directory |
| `GenBuild.IsIncludeCxx` | gen/build/src/lib.rs:73-74 | An item is selected when it is a macro item whose path is the identifier `include_cxx`. `MatchingExactly` and `MatchingSkipsOthers` state what this selects |
| `GenBuild.Matching` | gen/build/src/lib.rs:72-74 | The selected macros are at most as many as the items. `MatchingExactly`, `MatchingConcat` and `MatchingSkipsOthers` state which macros they are |
| `GenBuild.MatchingExactly` | gen/build/src/lib.rs:72-74 | Every selected macro is an `include_cxx` macro item of the file. Nothing is selected exactly when the file has no `include_cxx` item |
| `GenBuild.ProcessAll` | gen/build/src/lib.rs:72-88 | On success there is one include directory and one file per macro. Any failure is `MacroParseFail`, `InvalidCxx` or `FileWriteFail` |
| `GenBuild.Scan` | gen/build/src/lib.rs:71-96 | On success there is at least one file, one per matching macro, and as many include directories as files. Any failure is `NoIncludeCxxMacrosFound` or a per-macro error. `ScanOkIff` states exactly when it succeeds |
| `GenBuild.Expected` | gen/build/src/lib.rs:58-97 | Success needs a created temporary directory and yields at least one file, with as many include directories as files. The result is `TempDirCreationFailed` exactly when creating the temporary directory failed. This is the specification `Builder.New` is proved against |
| `GenBuild.MatchingConcat` | gen/build/src/lib.rs:72-74 | Each item is selected independently, so the selection distributes over concatenation |
| `GenBuild.MatchingSkipsOthers` | gen/build/src/lib.rs:72-74 | Inserting an item that is not an `include_cxx` macro does not change the matched macros |
| `GenBuild.ScanSkipsOthers` | gen/build/src/lib.rs:72-74 | Inserting an item that is not an `include_cxx` macro does not change the outcome of the scan |
| `GenBuild.ProcessAllOkIff` | gen/build/src/lib.rs:72-88 | Processing succeeds exactly when every macro's step succeeds |
| `GenBuild.ProcessAllOk` | gen/build/src/lib.rs:77-85 | On success there is exactly one include directory and one file per macro, in source order. The k-th include directory is the k-th macro's, and the k-th file is `gen{k}.cxx` in the temporary directory |
| `GenBuild.ProcessAllFailFast` | gen/build/src/lib.rs:75-84 | Once processing has failed, further macros do not change the outcome |
| `GenBuild.FirstFailureWins` | gen/build/src/lib.rs:75-84 | If every macro before k succeeds and macro k fails, the result is macro k's error, whatever follows |
| `GenBuild.ProcessAllErr` | gen/build/src/lib.rs:75-84 | Every failure of processing is the error of the first failing macro |
| `GenBuild.ScanStep` | gen/build/src/lib.rs:72-85 | One more item extends the scan: an `include_cxx` macro adds one macro, numbered by the macros before it, and extends the processing by that macro's step. Any other item changes neither the macros nor the processing |
| `GenBuild.ScanFrom` | gen/build/src/lib.rs:71-96 | The scan item by item, as the loop runs it, from a given item with the macro count and gathered plan so far. `ScanFromIsScan` states that it computes `Scan` |
| `GenBuild.ScanFromIsScan` | gen/build/src/lib.rs:71-96 | Resumed after any prefix of the items whose macros were processed into a plan, with the count of those macros, the item-by-item scan yields exactly `Scan` of the whole file, error or result |
| `GenBuild.ScanOkIff` | gen/build/src/lib.rs:72-96 | The scan succeeds exactly when at least one item is an `include_cxx` macro and the step of every such macro, numbered in source order, succeeds |
| `GenBuild.ScanNoMacrosIff` | gen/build/src/lib.rs:89-96 | The scan gives `NoIncludeCxxMacrosFound` exactly when no item is an `include_cxx` macro |
| `GenBuild.ScanOk` | gen/build/src/lib.rs:71-96 | A successful scan over N ≥ 1 matching macros gathers N include directories and the N files `gen0.cxx` … `gen{N-1}.cxx` in the temporary directory, all distinct and in source order |
| `GenBuild.ExpectedPrecedence` | gen/build/src/lib.rs:63-70 | Temporary-directory creation fails first, then reading the file, then parsing it. Only after all three succeed is the outcome that of the scan |
| `GenBuild.Build.constructor` | gen/build/src/lib.rs:64 | A new build is not in C++ mode and has no include directories or files |
| `GenBuild.Build.Cpp` | gen/build/src/lib.rs:65 | Sets C++ mode and leaves include directories and files unchanged |
| `GenBuild.Build.Include` | gen/build/src/lib.rs:77 | Appends one include directory and changes nothing else |
| `GenBuild.Build.File` | gen/build/src/lib.rs:85 | Appends one file and changes nothing else |
| `GenBuild.Builder.constructor` | gen/build/src/lib.rs:92-95 | The builder owns the given build and temporary directory |
| `GenBuild.Builder.FetchBuild` | gen/build/src/lib.rs:100-102 | Returns the stored build object itself, so the caller mutates the builder's own build, and changes nothing |
| `GenBuild.Builder.AddMacro` | gen/build/src/lib.rs:75-85 | Processing the counter-th macro fails exactly when `Step` fails, with `Step`'s error. On success the build gains exactly `Step`'s include directory and file, and its C++ flag is unchanged |
| `GenBuild.Builder.AddAll` | gen/build/src/lib.rs:71-96 | The loop over the file's items, counting macros from 0, fails exactly when `Scan` fails, with `Scan`'s error. On success the build holds exactly `Scan`'s include directories and files. Its invariant is that the item-by-item scan `ScanFrom` from the current item, count and build equals `Scan` |
| `GenBuild.Builder.New` | gen/build/src/lib.rs:58-97 | Fails exactly when `Expected` fails, with the same error. On success it returns a fresh builder that owns the created temporary directory. Its fresh build is in C++ mode and holds exactly the include directories and files of `Expected` |

## Left out

- Real filesystem work is left out: `tempdir()`, `fs::read_to_string`, `File::create` and `write_all`. Each is an oracle in `Env` that returns success or an error.
- Each oracle is a pure function of its input. For example, writing the same content to the same path always has the same outcome. The driver writes every path at most once, so this matters only for what a real filesystem could do between two calls.
- `io::Error` and `syn::Error` become opaque `IoError` and `SynError` values that carry a description.
- The removal of the temporary directory when the `Builder` is dropped is not modelled. The model records only that the builder owns the directory.
- Rust parsing and C++ generation are opaque oracles, because the engine code behind them is not part of this model. This covers `syn::parse_file`, `IncludeCpp::new_from_syn` and `generate_h_and_cxx`. Of the generated header/C++ pair, only the C++ half is written, as in the source.
- `is_ident("include_cxx")` is modelled as "the macro path is the single segment `include_cxx`". A leading `::` and generic arguments on the segment are not modelled.
- `cc::Build` keeps only the C++ flag, the include directories and the files. Compiler detection and invocation are not modelled.
- In `Builder.AddMacro`, the include directory is added before generation, as in the source. When generation fails the whole build is discarded, so `Expected` records include directories only for macros that were fully processed.
- The contents of syn fragments (`extern_c_mod_item`, `bridge_item`, `global_items`, `bindgen_mod_item`) and of `AdditionalNeed` are opaque token strings, because nothing modelled here reads them.
- The garbage collection that walks `deps` is not modelled, because its implementation is not in the modelled files. `deps` is kept as a field of `Api`.
- `Namespace` and `TypeName` are modelled as a segment sequence and a plain pair. `engine/src/types.rs` is not part of this model.
- `Display::fmt` writes into a `Formatter` and could pass on a formatter error. `Display` models only the text that is written.
- The `Debug` derivations of `ConvertError` and `Error` are not modelled.
- GenBuild.Builder.AddAll: the macro counter is an unbounded `nat`. In the source, `let mut counter = 0;` (gen/build/src/lib.rs:71) defaults to `i32`. After 2^31 − 1 matching macros, `counter += 1` (gen/build/src/lib.rs:82) would panic in a debug build or wrap in a release build. No real file holds that many macros, so the model does not capture this. `GenName` and `NatToString` likewise take a `nat`.
