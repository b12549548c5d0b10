# ClearTK sequential data writer, modelled in Dafny

This project models two pieces of ClearTK's training-data export.

- **The sequential data writer** (`SequentialDataWriter_ImplBase`). `writeSequence` walks a
  sequence of instances. For each one it encodes the features and the outcome with the
  configured encoders and hands the pair to the abstract `writeEncoded`. It then calls
  `writeEndSequence` once. The writer keeps a registry of the output handles it opened through
  `getPrintWriter`. `finish` flushes and closes those handles in registration order. It then
  serialises the features encoder and then the outcome encoder into one encoder file. Last, it
  records the default classifier builder in the manifest and writes the manifest to the output
  directory.
- **The text training-data format** (`TestDataWriter_ImplBase`). Its constructor opens
  `training-data.test` through the registry. Its `writeEncoded` prints one line per instance:
  the outcome, then ` null=0` when there are no features, otherwise a space and a token per
  feature (`name` when the weight is 1.0, `name=weight` otherwise), then a line terminator. A
  null outcome is an error and prints nothing.

Layout:

- `wrappers.dfy`: `Option` (a Java reference that may be null) and `Outcome` (a call that may throw).
- `files.dfy`: paths as lists of components, the directories `mkdirs` creates, and the state of
  one output handle (`Handle`: what was printed, how much of it was flushed, whether it is closed).
- `sequential_writer.dfy`: the writer as a class (`SequentialDataWriter`). The steps it delegates
  are recorded in order in its `trace` field as `Event`s: the abstract `writeEncoded` and
  `writeEndSequence`, flush and close of a handle, serialising each encoder, setting the builder,
  writing the manifest. The spec functions `SequenceEvents` and `FinishEvents` give the events of
  one `writeSequence` and of `finish`. Lemmas state the order and counting properties of those events.
- `test_writer.dfy`: the line format as the spec functions `Record` and `Line`. The class
  `TestDataWriter` appends to the training-data handle piece by piece, as the source does. `Fields`
  splits a line at spaces, and `LineFields` proves that splitting a line gives back the outcome and
  the feature tokens.

The writer's handles are values in its `writers` sequence, so a handle is identified by its
position in the registry. `GetPrintWriter` returns that position. `TestDataWriter` keeps the
position of its training-data handle.

## Model

| member | source | states |
|---|---|---|
| `SequentialWriter.SequentialDataWriter.constructor` | src/org/cleartk/classifier/SequentialDataWriter_ImplBase.java:47-54 | A new writer has the given output directory, an empty registry, a manifest that names no builder, no encoders and an empty trace. |
| `SequentialWriter.SequentialDataWriter.WriteSequence` | src/org/cleartk/classifier/SequentialDataWriter_ImplBase.java:57-64 | The trace grows by exactly `SequenceEvents(encoders, instances)`: one `writeEncoded` per instance, using the current encoders, then one `writeEndSequence`. Encoders are needed only when the list is non-empty. |
| `SequentialWriter.SequentialDataWriter.WriteEncoded` | src/org/cleartk/classifier/SequentialDataWriter_ImplBase.java:66 | The abstract step is recorded as one `Encoded(features, outcome)` event. |
| `SequentialWriter.SequentialDataWriter.WriteEndSequence` | src/org/cleartk/classifier/SequentialDataWriter_ImplBase.java:68 | The abstract step is recorded as one `EndSequence` event. |
| `SequentialWriter.EncodingsAt` | src/org/cleartk/classifier/SequentialDataWriter_ImplBase.java:58-61 | There are as many encodings as instances. The k-th carries `encodeAll(xs[k].features)` and `encode(xs[k].outcome)` from the current encoders. |
| `SequentialWriter.EncodingsCount` | src/org/cleartk/classifier/SequentialDataWriter_ImplBase.java:58-62 | The encodings of `xs` hold exactly `|xs|` `writeEncoded` events and no `writeEndSequence`. |
| `SequentialWriter.SequenceEventsShape` | src/org/cleartk/classifier/SequentialDataWriter_ImplBase.java:57-64 | `writeSequence(xs)` makes `|xs|+1` calls. The first `|xs|` are `writeEncoded`, for the instances in order. The last is the only `writeEndSequence`. For an empty list the only call is `writeEndSequence`. |
| `SequentialWriter.SequentialDataWriter.Finish` | src/org/cleartk/classifier/SequentialDataWriter_ImplBase.java:70-99 | Every registered handle ends flushed and closed, with its text kept, whether or not `finish` succeeds. Opening the encoder file creates no directory, so `finish` fails with `FileNotFound(outputDirectory/encoders.ser)` exactly when the output directory does not exist; then the trace grows only by the close events and the manifest is unchanged. Otherwise the trace grows by exactly `FinishEvents(...)` and the manifest gets the default builder and nothing else changes. Encoders and directories are unchanged. |
| `SequentialWriter.SequentialDataWriter.FlushWriter` | src/org/cleartk/classifier/SequentialDataWriter_ImplBase.java:73 | Only the i-th handle changes: all its text is flushed. One `Flush(i)` event is recorded. |
| `SequentialWriter.SequentialDataWriter.CloseWriter` | src/org/cleartk/classifier/SequentialDataWriter_ImplBase.java:74 | Only the i-th handle changes: it is flushed and closed. One `Close(i)` event is recorded. |
| `SequentialWriter.CloseEventsAt` | src/org/cleartk/classifier/SequentialDataWriter_ImplBase.java:72-75 | The close loop makes `2n` calls. Position `2i` flushes writer `i` and position `2i+1` closes it, so writers are handled in registration order and each is flushed before it is closed. |
| `SequentialWriter.CloseEventsCount` | src/org/cleartk/classifier/SequentialDataWriter_ImplBase.java:72-75 | The close loop flushes and closes each of the `n` registered writers exactly once and no other. It serialises nothing and writes no manifest. |
| `SequentialWriter.FinishEventsOrder` | src/org/cleartk/classifier/SequentialDataWriter_ImplBase.java:70-98 | A `finish` that succeeds does all flushes and closes first. Then it writes the features encoder and then the outcome encoder, both to `outputDirectory/encoders.ser`. Then it sets the default builder. Last, it writes to the output directory a manifest naming that builder. |
| `SequentialWriter.FinishEventsCount` | src/org/cleartk/classifier/SequentialDataWriter_ImplBase.java:70-98 | A `finish` that succeeds flushes and closes each registered writer exactly once and no other. It writes two encoder objects and one manifest, also when no writer is registered. |
| `SequentialWriter.SequentialDataWriter.SetFeaturesEncoder` | src/org/cleartk/classifier/SequentialDataWriter_ImplBase.java:101-103 | The features encoder is replaced by the given one. |
| `SequentialWriter.SequentialDataWriter.SetOutcomeEncoder` | src/org/cleartk/classifier/SequentialDataWriter_ImplBase.java:105-107 | The outcome encoder is replaced by the given one. |
| `SequentialWriter.SequentialDataWriter.GetFile` | src/org/cleartk/classifier/SequentialDataWriter_ImplBase.java:109-111 | A pure function: the path is an entry directly in the output directory, with the given name. |
| `SequentialWriter.SequentialDataWriter.GetPrintWriter` | src/org/cleartk/classifier/SequentialDataWriter_ImplBase.java:113-122 | The registry grows by exactly one new open handle on `outputDirectory/name`, at the end. Earlier entries are unchanged, and a repeated name still gets a new handle. The result is the new handle's position. The output directory and its ancestors are created when it does not exist. The invariant "every handle lies in the output directory, which exists" is kept. |
| `TestWriter.TestDataWriter.constructor` | ClearTK-ml/src/test/java/org/cleartk/classifier/test/TestDataWriter_ImplBase.java:47-53 | The registry holds exactly one handle, an open and empty one on `outputDirectory/training-data.test`. The training-data handle is that one. The output directory and its ancestors are created when it does not exist, and no other directory is. |
| `TestWriter.TestDataWriter.WriteEncoded` | ClearTK-ml/src/test/java/org/cleartk/classifier/test/TestDataWriter_ImplBase.java:57-80 | A null outcome fails with `MissingOutcome` and changes no handle. Otherwise exactly `Line(outcome, features)` is appended to the training-data handle. Earlier text and every other handle are untouched. |
| `TestWriter.TestDataWriter.PrintFeatures` | ClearTK-ml/src/test/java/org/cleartk/classifier/test/TestDataWriter_ImplBase.java:68-76 | The loop appends exactly `Tokens(features)` to the training-data handle: a space and a token per feature, in list order. |
| `TestWriter.Record` | ClearTK-ml/src/test/java/org/cleartk/classifier/test/TestDataWriter_ImplBase.java:62-76 | The record starts with the outcome. With no features it is exactly `outcome + " null=0"`. |
| `TestWriter.TokenTexts` | ClearTK-ml/src/test/java/org/cleartk/classifier/test/TestDataWriter_ImplBase.java:69-76 | There is one token text per feature, in list order. The text is `name` when the weight is one and `name=Render(weight)` otherwise. |
| `TestWriter.TokensSnoc` | ClearTK-ml/src/test/java/org/cleartk/classifier/test/TestDataWriter_ImplBase.java:69-76 | Printing one more feature extends what is printed by one space and that feature's token, at the end. |
| `TestWriter.LineFields` | ClearTK-ml/src/test/java/org/cleartk/classifier/test/TestDataWriter_ImplBase.java:62-76 | Split at spaces, a record gives back the outcome and then exactly the feature tokens in list order. With no features it gives the outcome and `null=0`. So a non-empty list never emits the sentinel. Assumes outcome, names and rendered weights contain no spaces. |
| `TestWriter.LineHasOneTerminator` | ClearTK-ml/src/test/java/org/cleartk/classifier/test/TestDataWriter_ImplBase.java:62-79 | When no part contains a line break, a written line contains exactly one, as its last character. |

## Left out

- File I/O is not modelled: no real files or directories, and no `IOException` from opening, printing or closing, except the missing output directory when `finish` opens the encoder file. A handle is a value that records its file, the text printed to it, how much of that text is flushed, and whether it is closed. The file system's directories are a set of paths that the writer is given at construction.
- `BufferedWriter` can flush on its own when its buffer fills. The model does not capture this, so `flushed` is a lower bound on what has reached the file.
- Object serialisation is not modelled. `finish` records which encoder objects it writes, to which file and in which order, but not the bytes. Closing the object stream is not a separate event.
- Reflection is not modelled. The builder that `getDefaultClassifierBuilderClass().newInstance()` would create is an opaque value given at construction, and the exception wrapping around it is left out. `getDefaultClassifierBuilderClass` itself is abstract in the source.
- The encoders are modelled as pure functions (`encodeAll`, `encode`). State that a real encoder builds up while it encodes, such as a growing feature index, is not captured. Encoder failures are not modelled. `FeaturesEncoder_ImplBase` is not part of this model. The encoder file name `encoders.ser` is its `ENCODER_FILE_NAME`, and only the fact that both encoders go to the same file in the output directory matters here.
- `ClassifierManifest` is not part of this model. The manifest is reduced to the builder it names. `write` is recorded as one event carrying the manifest's content.
- `JarDataWriter` is not part of this model. `TestDataWriter` uses a `SequentialDataWriter` as its base for the registry and `getPrintWriter`, which it inherits in the source.
- `TestDataWriter`'s `writeEndSequence` is not defined in that class, so it is not modelled.
- Weights are not floating-point numbers here. A `Number` carries its `doubleValue` as an exact real, which `IsOne` compares with 1.0. It also carries the text `toString` gives, which `Render` returns.
- `println` is modelled as printing `"\n"`. The platform line separator is not modelled.
- File names are single path components. A name that contains a separator, which would resolve to a deeper directory, is not modelled.
- `SequentialWriter.SequentialDataWriter.WriteSequence`: the source throws a `NullPointerException` when an encoder is unset and the list is non-empty. The model makes that a precondition instead. Calling it after `finish` is also a precondition, because the source does not guard against it.
- `SequentialWriter.SequentialDataWriter.Finish`: calling it twice is a precondition, because the source does not guard against it. The close loop stops at the first failure. `PrintWriter.close` reports no failure, and nothing keeps closing the remaining handles after a failure, so the model does not either.
- `TestWriter.TestDataWriter.WriteEncoded`: it requires the writer not to be finished. In the source, printing to a closed `PrintWriter` silently drops the text. That path is not modelled.
- `SequentialWriter.SequentialDataWriter.SetFeaturesEncoder` and `SequentialWriter.SequentialDataWriter.SetOutcomeEncoder`: nothing checks that the encoders stay the same within a session, so the model does not check it either. Setting an encoder to null is not modelled.
