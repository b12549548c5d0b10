/**
 * The sequential data writer (SequentialDataWriter_ImplBase): it encodes each
 * instance of a sequence and hands the encoded pair to the concrete format,
 * keeps a registry of the output handles it opened, and at the end closes them,
 * serialises the encoder pair and writes the classifier manifest.
 *
 * The steps the writer delegates to the outside world (the abstract
 * `writeEncoded` and `writeEndSequence`, flush and close of a handle, object
 * serialisation, the manifest) are recorded, in the order they happen, as
 * `Event`s in the writer's `trace`.
 */
module SequentialWriter {
  import opened Wrappers
  import opened Files

  /** One labelled example: its raw features and its outcome. */
  datatype Instance<Raw, In> = Instance(features: seq<Raw>, outcome: In)

  /** A features encoder, seen through `encodeAll`. */
  datatype FeaturesEncoder<-Raw, F> = FeaturesEncoder(encodeAll: seq<Raw> -> F)

  /** An outcome encoder, seen through `encode`. */
  datatype OutcomeEncoder<-In, Out> = OutcomeEncoder(encode: In -> Out)

  /** The classifier builder the manifest names; an opaque identifier. */
  datatype ClassifierBuilder = ClassifierBuilder(className: string)

  /** The classifier manifest: which builder owns the output directory. */
  datatype Manifest = Manifest(classifierBuilder: Option<ClassifierBuilder>)

  /** A newly created manifest names no builder yet. */
  const FreshManifest: Manifest := Manifest(None)

  /** Why `finish` fails: the encoder file cannot be opened because its directory does not exist. */
  datatype FinishError = FileNotFound(file: Path)

  /** The one file both encoders are serialised into (FeaturesEncoder_ImplBase.ENCODER_FILE_NAME). */
  const EncoderFileName: string := "encoders.ser"

  datatype Event<-Raw, -In, Out, F> =
    | Encoded(encodedFeatures: F, encodedOutcome: Out)             // writeEncoded(features, outcome)
    | EndSequence                                                  // writeEndSequence()
    | Flush(writer: nat)                                           // writers[writer].flush()
    | Close(writer: nat)                                           // writers[writer].close()
    | WriteFeaturesEncoder(file: Path, fe: Option<FeaturesEncoder<Raw, F>>)
    | WriteOutcomeEncoder(file: Path, oe: Option<OutcomeEncoder<In, Out>>)
    | SetClassifierBuilder(builder: ClassifierBuilder)
    | WriteManifest(dir: Path, manifest: Manifest)

  // ---------------------------------------------------------------------------
  // What writeSequence does, as a function of its inputs

  /** The encoders are there whenever an instance has to be encoded. */
  predicate CanEncode<Raw, In, Out, F>(fe: Option<FeaturesEncoder<Raw, F>>, oe: Option<OutcomeEncoder<In, Out>>,
                                       xs: seq<Instance<Raw, In>>)
  {
    xs != [] ==> fe.Some? && oe.Some?
  }

  /** The `writeEncoded` call made for instance `x`. */
  function EncodedEvent<Raw, In, Out, F>(fe: FeaturesEncoder<Raw, F>, oe: OutcomeEncoder<In, Out>,
                                         x: Instance<Raw, In>): Event<Raw, In, Out, F>
  {
    Encoded(fe.encodeAll(x.features), oe.encode(x.outcome))
  }

  /** The `writeEncoded` calls made for `xs`, one per instance. */
  function Encodings<Raw, In, Out, F>(fe: Option<FeaturesEncoder<Raw, F>>, oe: Option<OutcomeEncoder<In, Out>>,
                                      xs: seq<Instance<Raw, In>>): seq<Event<Raw, In, Out, F>>
    requires CanEncode(fe, oe, xs)
  {
    if xs == [] then []
    else Encodings(fe, oe, xs[..|xs| - 1]) + [EncodedEvent(fe.value, oe.value, xs[|xs| - 1])]
  }

  /** Everything `writeSequence(xs)` does: the encodings, then the terminator. */
  function SequenceEvents<Raw, In, Out, F>(fe: Option<FeaturesEncoder<Raw, F>>, oe: Option<OutcomeEncoder<In, Out>>,
                                           xs: seq<Instance<Raw, In>>): seq<Event<Raw, In, Out, F>>
    requires CanEncode(fe, oe, xs)
  {
    Encodings(fe, oe, xs) + [EndSequence]
  }

  // ---------------------------------------------------------------------------
  // What finish does, as a function of the state it starts from

  /** Flush then close of the first `n` registered writers, in registration order. */
  function CloseEvents<Raw, In, Out, F>(n: nat): seq<Event<Raw, In, Out, F>>
  {
    if n == 0 then [] else CloseEvents(n - 1) + [Flush(n - 1), Close(n - 1)]
  }

  /** Everything `finish` does when `n` writers are registered. */
  function FinishEvents<Raw, In, Out, F>(n: nat, dir: Path, fe: Option<FeaturesEncoder<Raw, F>>,
                                         oe: Option<OutcomeEncoder<In, Out>>, builder: ClassifierBuilder,
                                         manifest: Manifest): seq<Event<Raw, In, Out, F>>
  {
    CloseEvents(n)
    + [ WriteFeaturesEncoder(dir + [EncoderFileName], fe),
        WriteOutcomeEncoder(dir + [EncoderFileName], oe),
        SetClassifierBuilder(builder),
        WriteManifest(dir, manifest.(classifierBuilder := Some(builder))) ]
  }

  // ---------------------------------------------------------------------------
  // Counting events

  /** How many events of `es` are of the kind `isKind` accepts. */
  ghost function Count<Raw, In, Out, F>(es: seq<Event<Raw, In, Out, F>>, isKind: Event<Raw, In, Out, F> -> bool): nat
  {
    if es == [] then 0
    else Count(es[..|es| - 1], isKind) + (if isKind(es[|es| - 1]) then 1 else 0)
  }

  ghost function IsEncoded<Raw, In, Out, F>(): Event<Raw, In, Out, F> -> bool
  {
    (e: Event<Raw, In, Out, F>) => e.Encoded?
  }

  ghost function IsEndSequence<Raw, In, Out, F>(): Event<Raw, In, Out, F> -> bool
  {
    (e: Event<Raw, In, Out, F>) => e.EndSequence?
  }

  ghost function IsFlushOf<Raw, In, Out, F>(i: nat): Event<Raw, In, Out, F> -> bool
  {
    (e: Event<Raw, In, Out, F>) => e.Flush? && e.writer == i
  }

  ghost function IsCloseOf<Raw, In, Out, F>(i: nat): Event<Raw, In, Out, F> -> bool
  {
    (e: Event<Raw, In, Out, F>) => e.Close? && e.writer == i
  }

  ghost function IsEncoderWrite<Raw, In, Out, F>(): Event<Raw, In, Out, F> -> bool
  {
    (e: Event<Raw, In, Out, F>) => e.WriteFeaturesEncoder? || e.WriteOutcomeEncoder?
  }

  ghost function IsManifestWrite<Raw, In, Out, F>(): Event<Raw, In, Out, F> -> bool
  {
    (e: Event<Raw, In, Out, F>) => e.WriteManifest?
  }

  lemma {:induction false} CountAppend<Raw, In, Out, F>(a: seq<Event<Raw, In, Out, F>>, b: seq<Event<Raw, In, Out, F>>,
                                                          isKind: Event<Raw, In, Out, F> -> bool)
    ensures Count(a + b, isKind) == Count(a, isKind) + Count(b, isKind)
  {
    if b == [] {
      assert a + b == a;
    } else {
      assert (a + b)[..|a + b| - 1] == a + b[..|b| - 1];
      CountAppend(a, b[..|b| - 1], isKind);
    }
  }

  lemma CountCons<Raw, In, Out, F>(e: Event<Raw, In, Out, F>, es: seq<Event<Raw, In, Out, F>>,
                                   isKind: Event<Raw, In, Out, F> -> bool)
    ensures Count([e] + es, isKind) == (if isKind(e) then 1 else 0) + Count(es, isKind)
  {
    var one: seq<Event<Raw, In, Out, F>> := [e];
    assert one[..0] == [];
    CountAppend(one, es, isKind);
  }

  // ---------------------------------------------------------------------------
  // Properties of writeSequence

  /** The k-th `writeEncoded` call carries the encodings of the k-th instance, with the current encoders. */
  lemma {:induction false} EncodingsAt<Raw, In, Out, F>(fe: Option<FeaturesEncoder<Raw, F>>, oe: Option<OutcomeEncoder<In, Out>>,
                                                          xs: seq<Instance<Raw, In>>, k: nat)
    requires CanEncode(fe, oe, xs)
    ensures |Encodings(fe, oe, xs)| == |xs|
    ensures k < |xs| ==> Encodings(fe, oe, xs)[k] == Encoded(fe.value.encodeAll(xs[k].features), oe.value.encode(xs[k].outcome))
  {
    if xs != [] {
      var init := xs[..|xs| - 1];
      EncodingsAt(fe, oe, init, if k < |init| then k else 0);
    }
  }

  /** The encodings are all `writeEncoded` calls, one per instance. */
  lemma {:induction false} EncodingsCount<Raw, In, Out, F>(fe: Option<FeaturesEncoder<Raw, F>>, oe: Option<OutcomeEncoder<In, Out>>,
                                                             xs: seq<Instance<Raw, In>>)
    requires CanEncode(fe, oe, xs)
    ensures Count(Encodings(fe, oe, xs), IsEncoded()) == |xs|
    ensures Count(Encodings(fe, oe, xs), IsEndSequence()) == 0
  {
    if xs != [] {
      var init := xs[..|xs| - 1];
      var last := [EncodedEvent(fe.value, oe.value, xs[|xs| - 1])];
      EncodingsCount(fe, oe, init);
      CountAppend(Encodings(fe, oe, init), last, IsEncoded());
      CountAppend(Encodings(fe, oe, init), last, IsEndSequence());
      assert last[..0] == [];
    }
  }

  /**
   * writeSequence(xs) makes exactly |xs| writeEncoded calls, the k-th for xs[k],
   * and then exactly one writeEndSequence call, also when xs is empty.
   */
  lemma SequenceEventsShape<Raw, In, Out, F>(fe: Option<FeaturesEncoder<Raw, F>>, oe: Option<OutcomeEncoder<In, Out>>,
                                              xs: seq<Instance<Raw, In>>)
    requires CanEncode(fe, oe, xs)
    ensures |SequenceEvents(fe, oe, xs)| == |xs| + 1
    ensures forall k :: 0 <= k < |xs| ==>
      SequenceEvents(fe, oe, xs)[k] == Encoded(fe.value.encodeAll(xs[k].features), oe.value.encode(xs[k].outcome))
    ensures SequenceEvents(fe, oe, xs)[|xs|] == EndSequence
    ensures Count(SequenceEvents(fe, oe, xs), IsEncoded()) == |xs|
    ensures Count(SequenceEvents(fe, oe, xs), IsEndSequence()) == 1
    ensures xs == [] ==> SequenceEvents(fe, oe, xs) == [EndSequence]
  {
    var enc := Encodings(fe, oe, xs);
    var end: seq<Event<Raw, In, Out, F>> := [EndSequence];
    EncodingsAt(fe, oe, xs, 0);
    forall k | 0 <= k < |xs|
      ensures SequenceEvents(fe, oe, xs)[k] == Encoded(fe.value.encodeAll(xs[k].features), oe.value.encode(xs[k].outcome))
    {
      EncodingsAt(fe, oe, xs, k);
    }
    EncodingsCount(fe, oe, xs);
    CountAppend(enc, end, IsEncoded());
    CountAppend(enc, end, IsEndSequence());
    assert end[..0] == [];
  }

  // ---------------------------------------------------------------------------
  // Properties of finish

  /** Position 2i is the flush of writer i and position 2i+1 its close. */
  lemma {:induction false} CloseEventsAt<Raw, In, Out, F>(n: nat, j: nat)
    ensures |CloseEvents<Raw, In, Out, F>(n)| == 2 * n
    ensures j < 2 * n ==> CloseEvents<Raw, In, Out, F>(n)[j] == if j % 2 == 0 then Flush(j / 2) else Close(j / 2)
  {
    if n > 0 {
      CloseEventsAt<Raw, In, Out, F>(n - 1, if j < 2 * (n - 1) then j else 0);
    }
  }

  /** Each of the first n writers is flushed exactly once and closed exactly once; no other is touched. */
  lemma {:induction false} CloseEventsCount<Raw, In, Out, F>(n: nat, i: nat)
    ensures Count(CloseEvents<Raw, In, Out, F>(n), IsFlushOf(i)) == if i < n then 1 else 0
    ensures Count(CloseEvents<Raw, In, Out, F>(n), IsCloseOf(i)) == if i < n then 1 else 0
    ensures Count(CloseEvents<Raw, In, Out, F>(n), IsEncoderWrite()) == 0
    ensures Count(CloseEvents<Raw, In, Out, F>(n), IsManifestWrite()) == 0
  {
    if n > 0 {
      var pair: seq<Event<Raw, In, Out, F>> := [Flush(n - 1), Close(n - 1)];
      var last: seq<Event<Raw, In, Out, F>> := [Close(n - 1)];
      assert pair == [Flush(n - 1)] + last;
      CloseEventsCount<Raw, In, Out, F>(n - 1, i);
      forall isKind: Event<Raw, In, Out, F> -> bool
        ensures Count(CloseEvents<Raw, In, Out, F>(n), isKind)
             == Count(CloseEvents<Raw, In, Out, F>(n - 1), isKind)
                + (if isKind(Flush(n - 1)) then 1 else 0) + (if isKind(Close(n - 1)) then 1 else 0)
      {
        CountAppend(CloseEvents<Raw, In, Out, F>(n - 1), pair, isKind);
        CountCons(Flush(n - 1), last, isKind);
        CountCons(Close(n - 1), [], isKind);
        assert last == [Close(n - 1)] + [];
      }
    }
  }

  /**
   * finish first flushes and closes every registered writer in registration
   * order; then writes the features encoder and then the outcome encoder, both
   * to the encoder file in the output directory; then sets the builder on the
   * manifest; then writes that manifest to the output directory.
   */
  lemma FinishEventsOrder<Raw, In, Out, F>(n: nat, dir: Path, fe: Option<FeaturesEncoder<Raw, F>>,
                                           oe: Option<OutcomeEncoder<In, Out>>, builder: ClassifierBuilder,
                                           manifest: Manifest)
    ensures |FinishEvents(n, dir, fe, oe, builder, manifest)| == 2 * n + 4
    ensures forall j :: 0 <= j < 2 * n ==>
      FinishEvents(n, dir, fe, oe, builder, manifest)[j] == if j % 2 == 0 then Flush(j / 2) else Close(j / 2)
    ensures FinishEvents(n, dir, fe, oe, builder, manifest)[2 * n] == WriteFeaturesEncoder(dir + [EncoderFileName], fe)
    ensures FinishEvents(n, dir, fe, oe, builder, manifest)[2 * n + 1] == WriteOutcomeEncoder(dir + [EncoderFileName], oe)
    ensures FinishEvents(n, dir, fe, oe, builder, manifest)[2 * n + 2] == SetClassifierBuilder(builder)
    ensures FinishEvents(n, dir, fe, oe, builder, manifest)[2 * n + 3] == WriteManifest(dir, Manifest(Some(builder)))
  {
    CloseEventsAt<Raw, In, Out, F>(n, 0);
    forall j | 0 <= j < 2 * n
      ensures FinishEvents(n, dir, fe, oe, builder, manifest)[j] == if j % 2 == 0 then Flush(j / 2) else Close(j / 2)
    {
      CloseEventsAt<Raw, In, Out, F>(n, j);
    }
  }

  /**
   * A finish that succeeds flushes and closes each registered writer exactly
   * once and no other, and writes the two encoders and the manifest once each,
   * also when no writer is registered.
   */
  lemma FinishEventsCount<Raw, In, Out, F>(n: nat, dir: Path, fe: Option<FeaturesEncoder<Raw, F>>,
                                           oe: Option<OutcomeEncoder<In, Out>>, builder: ClassifierBuilder,
                                           manifest: Manifest, i: nat)
    ensures Count(FinishEvents(n, dir, fe, oe, builder, manifest), IsFlushOf(i)) == if i < n then 1 else 0
    ensures Count(FinishEvents(n, dir, fe, oe, builder, manifest), IsCloseOf(i)) == if i < n then 1 else 0
    ensures Count(FinishEvents(n, dir, fe, oe, builder, manifest), IsEncoderWrite()) == 2
    ensures Count(FinishEvents(n, dir, fe, oe, builder, manifest), IsManifestWrite()) == 1
  {
    var tail: seq<Event<Raw, In, Out, F>> :=
      [ WriteFeaturesEncoder(dir + [EncoderFileName], fe),
        WriteOutcomeEncoder(dir + [EncoderFileName], oe),
        SetClassifierBuilder(builder),
        WriteManifest(dir, manifest.(classifierBuilder := Some(builder))) ];
    CloseEventsCount<Raw, In, Out, F>(n, i);
    forall isKind: Event<Raw, In, Out, F> -> bool
      ensures Count(FinishEvents(n, dir, fe, oe, builder, manifest), isKind)
           == Count(CloseEvents<Raw, In, Out, F>(n), isKind)
              + (if isKind(tail[0]) then 1 else 0) + (if isKind(tail[1]) then 1 else 0)
              + (if isKind(tail[2]) then 1 else 0) + (if isKind(tail[3]) then 1 else 0)
    {
      CountAppend(CloseEvents<Raw, In, Out, F>(n), tail, isKind);
      assert tail == [tail[0]] + tail[1..];
      CountCons(tail[0], tail[1..], isKind);
      assert tail[1..] == [tail[1]] + tail[2..];
      CountCons(tail[1], tail[2..], isKind);
      assert tail[2..] == [tail[2]] + tail[3..];
      CountCons(tail[2], tail[3..], isKind);
      assert tail[3..] == [tail[3]] + [];
      CountCons(tail[3], [], isKind);
    }
  }

  // ---------------------------------------------------------------------------
  // The writer

  class SequentialDataWriter<Raw, In, Out, F> {
    const outputDirectory: Path
    /** The builder `getDefaultClassifierBuilderClass` names; that method is abstract in the writer. */
    const defaultBuilder: ClassifierBuilder
    /** The registry: every handle opened by `GetPrintWriter`, in the order opened. */
    var writers: seq<Handle>
    var classifierManifest: Manifest
    var featuresEncoder: Option<FeaturesEncoder<Raw, F>>
    var outcomeEncoder: Option<OutcomeEncoder<In, Out>>
    /** The directories that exist on the file system. */
    var directories: set<Path>
    /** The delegated steps taken so far, oldest first. */
    var trace: seq<Event<Raw, In, Out, F>>
    /** Whether `Finish` has run; the writer is spent afterwards. */
    ghost var finished: bool

    ghost predicate Valid()
      reads this
    {
      (forall i :: 0 <= i < |writers| ==> writers[i].Valid() && InDirectory(writers[i].file, outputDirectory))
      && (!finished ==> forall i :: 0 <= i < |writers| ==> !writers[i].closed)
      && (writers != [] ==> outputDirectory in directories)
    }

    /** A writer for `outputDirectory`: no handles yet and a fresh manifest. */
    constructor (outputDirectory: Path, defaultBuilder: ClassifierBuilder, directories: set<Path>)
      ensures Valid() && !finished
      ensures this.outputDirectory == outputDirectory && this.defaultBuilder == defaultBuilder
      ensures this.directories == directories
      ensures writers == [] && classifierManifest == FreshManifest
      ensures featuresEncoder == None && outcomeEncoder == None
      ensures trace == []
    {
      this.outputDirectory := outputDirectory;
      this.defaultBuilder := defaultBuilder;
      this.directories := directories;
      writers := [];
      classifierManifest := FreshManifest;
      featuresEncoder := None;
      outcomeEncoder := None;
      trace := [];
      finished := false;
    }

    /** Encode every instance in order, hand each encoded pair on, then mark the end of the sequence. */
    method WriteSequence(instances: seq<Instance<Raw, In>>)
      requires Valid() && !finished
      requires CanEncode(featuresEncoder, outcomeEncoder, instances)
      modifies this`trace
      ensures trace == old(trace) + SequenceEvents(featuresEncoder, outcomeEncoder, instances)
    {
      for i := 0 to |instances|
        invariant trace == old(trace) + Encodings(featuresEncoder, outcomeEncoder, instances[..i])
      {
        var instance := instances[i];
        var features := featuresEncoder.value.encodeAll(instance.features);
        var outcome := outcomeEncoder.value.encode(instance.outcome);
        WriteEncoded(features, outcome);
        assert instances[..i + 1][..i] == instances[..i];
      }
      assert instances[..|instances|] == instances;
      WriteEndSequence();
    }

    /** The abstract `writeEncoded` step: the concrete format decides what it prints. */
    method WriteEncoded(features: F, outcome: Out)
      modifies this`trace
      ensures trace == old(trace) + [Encoded(features, outcome)]
    {
      trace := trace + [Encoded(features, outcome)];
    }

    /** The abstract `writeEndSequence` step. */
    method WriteEndSequence()
      modifies this`trace
      ensures trace == old(trace) + [EndSequence]
    {
      trace := trace + [EndSequence];
    }

    /**
     * Close every handle, then open the encoder file and serialise the encoder
     * pair, then record the builder in the manifest and write it. Opening the
     * encoder file creates no directory: when the output directory does not
     * exist it fails, after the handles are closed and before anything else.
     */
    method Finish() returns (result: Outcome<FinishError>)
      requires Valid() && !finished
      modifies this
      ensures Valid() && finished
      ensures |writers| == |old(writers)|
      ensures forall i :: 0 <= i < |writers| ==> writers[i] == Closed(old(writers)[i])
      ensures result == if outputDirectory in old(directories) then Pass
                        else Fail(FileNotFound(outputDirectory + [EncoderFileName]))
      ensures result.Pass? ==>
        trace == old(trace) + FinishEvents(|old(writers)|, outputDirectory, featuresEncoder, outcomeEncoder,
                                           defaultBuilder, old(classifierManifest)) &&
        classifierManifest == old(classifierManifest).(classifierBuilder := Some(defaultBuilder))
      ensures result.Fail? ==>
        trace == old(trace) + CloseEvents(|old(writers)|) && classifierManifest == old(classifierManifest)
      ensures featuresEncoder == old(featuresEncoder) && outcomeEncoder == old(outcomeEncoder)
      ensures directories == old(directories)
    {
      for i := 0 to |writers|
        invariant |writers| == |old(writers)| && !finished
        invariant forall k :: 0 <= k < i ==> writers[k] == Closed(old(writers)[k])
        invariant forall k :: i <= k < |writers| ==> writers[k] == old(writers)[k]
        invariant trace == old(trace) + CloseEvents(i)
        invariant classifierManifest == old(classifierManifest)
        invariant featuresEncoder == old(featuresEncoder) && outcomeEncoder == old(outcomeEncoder)
        invariant directories == old(directories)
      {
        FlushWriter(i);
        CloseWriter(i);
      }
      finished := true;
      var encoderFile := GetFile(EncoderFileName);
      if Parent(encoderFile) !in directories {
        return Fail(FileNotFound(encoderFile));
      }
      trace := trace + [WriteFeaturesEncoder(encoderFile, featuresEncoder)];
      trace := trace + [WriteOutcomeEncoder(encoderFile, outcomeEncoder)];
      classifierManifest := classifierManifest.(classifierBuilder := Some(defaultBuilder));
      trace := trace + [SetClassifierBuilder(defaultBuilder)];
      trace := trace + [WriteManifest(outputDirectory, classifierManifest)];
      return Pass;
    }

    /** `writer.flush()` on the i-th registered handle. */
    method FlushWriter(i: nat)
      requires i < |writers|
      modifies this`writers, this`trace
      ensures writers == old(writers)[i := Flushed(old(writers)[i])]
      ensures trace == old(trace) + [Flush(i)]
    {
      writers := writers[i := Flushed(writers[i])];
      trace := trace + [Flush(i)];
    }

    /** `writer.close()` on the i-th registered handle. */
    method CloseWriter(i: nat)
      requires i < |writers|
      modifies this`writers, this`trace
      ensures writers == old(writers)[i := Closed(old(writers)[i])]
      ensures trace == old(trace) + [Close(i)]
    {
      writers := writers[i := Closed(writers[i])];
      trace := trace + [Close(i)];
    }

    method SetFeaturesEncoder(encoder: FeaturesEncoder<Raw, F>)
      modifies this`featuresEncoder
      ensures featuresEncoder == Some(encoder)
    {
      featuresEncoder := Some(encoder);
    }

    method SetOutcomeEncoder(encoder: OutcomeEncoder<In, Out>)
      modifies this`outcomeEncoder
      ensures outcomeEncoder == Some(encoder)
    {
      outcomeEncoder := Some(encoder);
    }

    /** The file `fileName` inside the output directory; resolving it touches nothing. */
    function GetFile(fileName: string): (file: Path)
      ensures InDirectory(file, outputDirectory)
      ensures file[|file| - 1] == fileName
    {
      outputDirectory + [fileName]
    }

    /**
     * Open a new handle on `fileName` in the output directory (creating the
     * directory if it does not exist) and register it at the end of the
     * registry; the result is its position there. Names are not deduplicated.
     */
    method GetPrintWriter(fileName: string) returns (writer: nat)
      requires Valid()
      modifies this`writers, this`directories
      ensures Valid()
      ensures writer == |old(writers)| && writers == old(writers) + [OpenHandle(GetFile(fileName))]
      ensures directories == if outputDirectory in old(directories) then old(directories)
                             else old(directories) + WithAncestors(outputDirectory)
    {
      var file := GetFile(fileName);
      if Parent(file) !in directories {
        directories := directories + WithAncestors(Parent(file));
        assert Parent(file)[..|Parent(file)|] == Parent(file);
      }
      writers := writers + [OpenHandle(file)];
      writer := |writers| - 1;
    }
  }
}
