# vueg, modelled in Dafny

vueg is the Go generator for Vue templates that `go generate` runs. It lists the
`*.vue` files of the working directory. For each one it checks that the Go file it
is about to write is not the file that invoked it. It then minifies the template,
parses it as an HTML fragment and finds the payload: the first element child of a
top-level `<template>` element. It renders that element back to markup and writes
`<base>.go`, which declares one unexported constant holding the markup. Any error
ends the whole run at once (`must` panics); files written before the error stay.

The model has five modules:

- `Wrappers` (wrappers.dfy): `Option` and `Outcome`.
- `Bytes` (bytes.dfy): byte strings, plus the parts of Go's `strings` package the
  generator uses. File names are bytes, because `filebase[:1]` cuts one byte.
- `Naming` (naming.dfy): the base name, the output file name and the constant
  identifier, with their lemmas.
- `Html` (html.dfy): the parsed node forest as a datatype. The parser's
  FirstChild/NextSibling chain becomes a sequence. It holds the payload search
  `firstChild`, both as the specification functions `FirstElement`/`FirstChild`
  and as the method `FindFirstChild`, whose nested loops follow the source.
- `Generator` (generator.dfy): one iteration of the main loop
  (`ProcessTemplate`, specified by the function `Process`) and the fail-fast loop
  (`Generate`, specified by `Run`). `Run` applies `RunSteps`, the fail-fast loop
  over an arbitrary per-template step. The `Steps…` lemmas about that loop hold
  for any step, and the `Run…` lemmas apply them to the generator's step.

Every call into code outside the model is a function-typed field of the `Io`
record:

- opening and reading a template;
- the minifier;
- `html.ParseFragment`;
- `html.Render`;
- `os.Create`;
- jen's rendering of the source;
- closing the output file.

`$GOFILE` and `$GOPACKAGE` form the `Config` record. The run's effect on the
file system is a ghost trace of `Effect`s:

- `Opened(template)`;
- `Created(file)`;
- `Written(file, source)`, meaning the whole source reached the file and it was closed.

Two behaviours of the source are worth knowing:

- firstChild has one error (main.go:100). Its scan passes over a `<template>`
  element with no element child and goes on to later ones (main.go:91-98).
  `Html.SkipsEmptyTemplate` and `Html.FirstChildSound` state this.
- `Foo.vue` and `foo.vue` both yield the constant `foo`, and any two base names
  whose first bytes lie beyond ASCII and whose tails agree yield the same constant.
  `Naming.IdentifierCollisionAll` gives the exact condition under which two
  non-empty base names collide; `Naming.IdentifierCollision` is its ASCII case.

The identifier is derived after the template has been read, parsed and rendered
(main.go:60). So an empty base name (a file named `.vue`) fails only after those
stages have succeeded, and `Process` keeps that order.

## Model

| member | source | states |
|---|---|---|
| `Bytes.TrimSuffix` | main.go:31 | the result followed by the suffix is the input when the input ends with the suffix; otherwise the input is returned unchanged |
| `Bytes.ToLowerByte` | main.go:60 | strings.ToLower on a one-byte string: an ASCII capital becomes its small letter (code + 32), other ASCII bytes stay, and a byte of 0x80 or more becomes the three bytes of U+FFFD; an ASCII result is never a capital |
| `Naming.BaseName` | main.go:31 | a template ending in ".vue" is its base name followed by ".vue"; any other path is its own base name |
| `Naming.OutputName` | main.go:32 | the output file name always ends in ".go" |
| `Naming.Identifier` | main.go:60 | there is no identifier exactly when the base name is empty (the slice panics); for an ASCII first byte it has the base name's length, its first byte is the lower-case of the base name's and is no capital, and every later byte is unchanged; for a non-ASCII first byte it is U+FFFD followed by the rest |
| `Naming.BaseNameOfTemplate` | main.go:31-32 | exactly one trailing ".vue" is removed, even from `x.vue.vue`, and the output name is that base followed by ".go" |
| `Naming.OutputNameInjective` | main.go:31-32 | two ".vue" templates with the same output file name are the same template |
| `Naming.IdentifierIdempotent` | main.go:60 | for an ASCII first byte, deriving the identifier of an identifier returns it unchanged |
| `Naming.IdentifierBeyondAscii` | main.go:60 | for a first byte of 0x80 or more, the identifier is two bytes longer than the base name and deriving it again changes it |
| `Naming.IdentifierCollision` | main.go:59-60 | two base names with ASCII first bytes get the same identifier if and only if their tails are equal and their first bytes are equal up to letter case |
| `Naming.IdentifierCollisionAll` | main.go:59-60 | two non-empty base names get the same identifier if and only if their tails are equal and their first bytes are equal up to letter case or both lie beyond ASCII |
| `Naming.HelloExample` | main.go:31-60 | `hello.vue` is written to `hello.go` with the constant `hello` |
| `Naming.WidgetExample` | main.go:60 | `Widget.vue` gets the constant `widget` |
| `Html.FirstElement` | main.go:93-97 | any result is an element among the children; there is no result if and only if no child is an element |
| `Html.FirstElementAt` | main.go:93-96 | the element found stands at an index before which every child is text or a comment |
| `Html.FirstElementOf` | main.go:93-96 | an element child preceded only by non-elements is the one found |
| `Html.FirstChild` | main.go:90-102 | the definition of firstChild's result; its own contract says only that any result is an element. `FirstChildSound`, `FirstChildComplete` and `FirstChildNone` characterise the result |
| `Html.FirstChildSound` | main.go:90-99 | any result is an element child of a top-level `template` element; every sibling before it is text or a comment, and no earlier top-level `template` has an element child |
| `Html.FirstChildComplete` | main.go:91-98 | conversely, an element placed as just described is the result |
| `Html.FirstChildNone` | main.go:91-100 | the search fails if and only if no top-level `template` element has an element child |
| `Html.SkipsEmptyTemplate` | main.go:91-98 | a leading `template` element without element children is passed over and the scan continues with the later nodes |
| `Html.FindFirstChild` | main.go:90-102 | the two nested loops over top-level nodes and sibling chains return exactly the result the search specifies |
| `Generator.HeaderComment` | main.go:56 | the header comment is the fixed lead "The vueg command generated this source from file: ", then the template name, then the fixed tail ", do not edit." |
| `Generator.Parsed` | main.go:39-48 | the forest of a template after opening, minifying and parsing it; its own contract says only that a forest means the open and the minify succeeded. `PassWritesPayload`, `ValidTemplatePasses` and `MissingPayloadAborts` use it |
| `Generator.Process` | main.go:31-69 | the definition of one loop iteration; its own contract says that a template passes exactly when it has three effects, has at most three, and opens the template first. `ConflictComesFirst`, `FailureWritesNothing`, `PassWritesPayload`, `ValidTemplatePasses` and `MissingPayloadAborts` specify it |
| `Generator.ConflictComesFirst` | main.go:33-36 | when the output name equals $GOFILE, the template fails with a file conflict and no effect, whatever the file system would answer: nothing is opened or created |
| `Generator.FailureWritesNothing` | main.go:38-69 | a failing template writes no output: at most it was opened and its output file created |
| `Generator.PassWritesPayload` | main.go:30-69 | a passing template has exactly the effects opened, created and written; the file is its output name and holds the package, the header comment, the derived identifier and the rendering of the payload element of its parsed forest |
| `Generator.ValidTemplatePasses` | main.go:31-69 | a template without conflict, whose open, minify and parse succeed, whose forest has a payload and whose base name is non-empty passes if and only if creating, writing and closing its output file succeed |
| `Generator.PassWritesOutput` | main.go:63-69 | a passing template has written its own output file and nothing else |
| `Generator.MissingPayloadAborts` | main.go:48-49 | when no top-level `template` of the parsed forest has an element child, the template fails with that error after being opened and before any output is created |
| `Generator.RunSteps` | main.go:30-70 | the definition of the fail-fast loop over any step; its own contract says that a failed run has the failure of one of its templates. The `Steps…` lemmas specify it |
| `Generator.Run` | main.go:30-70 | the generator's run, the fail-fast loop over `Process`; its own contract says only that an empty listing passes with no effect. The `Run…` lemmas and `ConflictEndsRun` and `MissingPayloadEndsRun` specify it |
| `Generator.StepsExtend` | main.go:30-70 | after passing templates, the loop goes on with the next template: outcome and effects extend by that template's step |
| `Generator.StepsEndAt` | main.go:30-70 | after passing templates, a failing next template ends the whole run with its failure, and its effects are the last ones added |
| `Generator.StepsStopAtFailure` | main.go:104-109 | once a run has failed, later templates change neither its outcome nor its effects |
| `Generator.StepsPass` | main.go:30-70 | for any step, a run passes if and only if every template's step passes |
| `Generator.StepsWriteAll` | main.go:30-70 | if each passing step writes exactly its template's output file, a passing run writes the output of every template, in listing order |
| `Generator.StepsFailAt` | main.go:30-70 | if the templates before i pass and template i fails, the run fails with i's error, and its effects are the earlier templates' followed by i's |
| `Generator.StepsFirstFailure` | main.go:30-70 | every failed run has a template whose predecessors all passed and whose failure is the run's |
| `Generator.RunPasses` | main.go:30-70 | the generator's run passes if and only if every template passes |
| `Generator.RunWritesAll` | main.go:30-70 | a passing run of the generator has written the output file of every template, in listing order |
| `Generator.RunFailsAt` | main.go:30-70 | when the templates before i pass and template i fails, the run fails with i's error; it adds only i's effects to the earlier ones and has written exactly the outputs of the earlier templates |
| `Generator.RunFirstFailure` | main.go:30-70 | every failed run of the generator failed at a template whose predecessors all passed |
| `Generator.ConflictEndsRun` | main.go:30-36 | a template whose output name is $GOFILE, reached after passing templates, ends the run with a conflict; it adds no effect and has written only the earlier templates' outputs |
| `Generator.MissingPayloadEndsRun` | main.go:47-49 | a template without payload, reached after passing templates, ends the run with the missing-child error; it has written only the earlier templates' outputs, nothing for it or any later template |
| `Generator.ProcessTemplate` | main.go:31-69 | one iteration, written step by step with an early return for each `must`, has exactly the outcome and effects of `Process` |
| `Generator.Generate` | main.go:28-70 | the main loop returns exactly the outcome and effect trace of `Run` on the listed templates |

## Left out

- Reading `$GOFILE` and `$GOPACKAGE` (main.go:22-23): they are the fields of `Config`.
- `filepath.Glob("*.vue")` (main.go:28-29): the listing is the input sequence of names.
  With a constant pattern its error cannot occur, so that error is not modelled.
- The minifier's configuration and behaviour (main.go:25-26, 44): `Io.minify` is an
  opaque function that may fail.
- Errors while the minifier reads the template: these are folded into `Io.open`.
- `html.ParseFragment` and `html.Render` (main.go:52, 74-82): `Io.parseFragment` and
  `Io.render` are opaque. Render is total because the source ignores its error.
- Node attributes and the parser's other node types (document, doctype, raw): the
  search never looks at them. They do matter to the output, though: `Io.render`
  takes the attribute-free `Node`, so in the model two payloads that differ only in
  attributes render to the same bytes, while `html.Render` (main.go:52) emits them.
- jen's emission of Go source (main.go:55-61, 66): the file's content is the
  `GoSource` record (package, header comment, constant name, value), not Go text.
- File I/O (main.go:39, 64-69): only the ghost effect trace records it. The template
  file the source opens is never closed; the model does not record that handle.
  A failed render (main.go:66-67) leaves the created file empty or partly written,
  shown only by `Created` without `Written`. jen formats the whole source before
  writing it, so a constant name that is no Go identifier (`hello-world.vue` gives
  `hello-world`) makes the render fail and leaves the file empty. After a failed
  close (main.go:68-69) the whole source may already be on disk, although the
  trace then records `Created` without `Written` and the lemmas count that file
  as not written.
- The reuse of one `bytes.Buffer` for the minified text and the rendering
  (main.go:43, 51): this is a streaming detail with no effect on the result.
- Go's Unicode case mapping: `Bytes.ToLowerByte` models `strings.ToLower` on one
  byte only, which is all the source applies it to.
- examples/1-hello-wasm/main.go: a usage example of the generated constant, with no
  logic of its own.
