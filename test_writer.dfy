/**
 * The text training-data format of TestDataWriter_ImplBase: one line per
 * instance, the outcome followed by one space-separated token per feature
 * (`name` when the weight is one, `name=weight` otherwise), or the sentinel
 * token `null=0` when there are no features.
 */
module TestWriter {
  import opened Wrappers
  import opened Files
  import opened SequentialWriter

  /** The training-data file the writer opens in its output directory. */
  const TrainingDataFileName: string := "training-data.test"

  /** What is printed in place of the features of an instance that has none. */
  const NoFeatures: string := " null=0"

  /** The line terminator `println` prints. */
  const LineTerminator: string := "\n"

  /**
   * A feature weight (a `java.lang.Number`): its `doubleValue`, taken as an
   * exact real, and the text its `toString` gives.
   */
  datatype Number = Number(doubleValue: real, rendering: string)

  /** The weight compares equal to 1.0. */
  predicate IsOne(w: Number)
  {
    w.doubleValue == 1.0
  }

  /** The text the weight prints as. */
  function Render(w: Number): string
  {
    w.rendering
  }

  /** An encoded feature: a name and a weight. */
  datatype NameNumber = NameNumber(name: string, number: Number)

  datatype WriteError = MissingOutcome

  // ---------------------------------------------------------------------------
  // The line format

  /** The token a feature is written as. */
  function Token(f: NameNumber): string
  {
    if IsOne(f.number) then f.name else f.name + "=" + Render(f.number)
  }

  /** Every feature's token, each preceded by one space, in list order. */
  function Tokens(features: seq<NameNumber>): string
  {
    if features == [] then "" else " " + Token(features[0]) + Tokens(features[1..])
  }

  /** The record of one instance: the line without its terminator. */
  function Record(outcome: string, features: seq<NameNumber>): (record: string)
    ensures |record| >= |outcome| && record[..|outcome|] == outcome
    ensures features == [] ==> record == outcome + " null=0"
  {
    outcome + (if features == [] then NoFeatures else "") + Tokens(features)
  }

  /** The line `writeEncoded` prints for a non-null outcome. */
  function Line(outcome: string, features: seq<NameNumber>): (line: string)
  {
    Record(outcome, features) + LineTerminator
  }

  /** Printing one more feature extends the tokens printed so far by that feature's token. */
  lemma {:induction false} TokensSnoc(features: seq<NameNumber>, f: NameNumber)
    ensures Tokens(features + [f]) == Tokens(features) + " " + Token(f)
  {
    if features == [] {
      assert [f][1..] == [];
    } else {
      assert (features + [f])[1..] == features[1..] + [f];
      TokensSnoc(features[1..], f);
    }
  }

  // ---------------------------------------------------------------------------
  // Reading a line back: splitting it at spaces

  /** The position of the first `c` in `s`. */
  function IndexOf(s: string, c: char): (k: nat)
    requires c in s
    ensures k < |s| && s[k] == c && c !in s[..k]
  {
    if s[0] == c then 0
    else
      var k := 1 + IndexOf(s[1..], c);
      assert s[..k] == [s[0]] + s[1..][..k - 1];
      k
  }

  /** The space-separated fields of `s`, empty ones included. */
  function Fields(s: string): (fields: seq<string>)
    ensures |fields| > 0
    decreases |s|
  {
    if ' ' !in s then [s]
    else
      var k := IndexOf(s, ' ');
      [s[..k]] + Fields(s[k + 1..])
  }

  lemma FieldsSplit(a: string, b: string)
    requires ' ' !in a
    ensures Fields(a + " " + b) == [a] + Fields(b)
  {
    var s := a + " " + b;
    assert s[|a|] == ' ';
    var k := IndexOf(s, ' ');
    assert s[..k] == a;
    assert s[k + 1..] == b;
  }

  /** The texts of the feature tokens, in list order. */
  function TokenTexts(features: seq<NameNumber>): (texts: seq<string>)
    ensures |texts| == |features|
    ensures forall i :: 0 <= i < |features| ==> texts[i] == Token(features[i])
  {
    if features == [] then [] else [Token(features[0])] + TokenTexts(features[1..])
  }

  /** The fields of a text without spaces followed by tokens are that text and the tokens' texts, in order. */
  lemma {:induction false} FieldsOfTokens(head: string, features: seq<NameNumber>)
    requires ' ' !in head
    requires forall f :: f in features ==> ' ' !in Token(f)
    ensures Fields(head + Tokens(features)) == [head] + TokenTexts(features)
    decreases |features|
  {
    if features == [] {
      assert head + Tokens(features) == head;
    } else {
      var rest := features[1..];
      var t := Token(features[0]) + Tokens(rest);
      assert head + Tokens(features) == head + " " + t;
      FieldsSplit(head, t);
      assert features[0] in features;
      assert forall f :: f in rest ==> f in features;
      FieldsOfTokens(Token(features[0]), rest);
    }
  }

  /** A character that is not a space or `=` occurs in the tokens only where it occurs in a name or a rendered weight. */
  lemma {:induction false} CharNotInTokens(c: char, features: seq<NameNumber>)
    requires c != ' ' && c != '='
    requires forall f :: f in features ==> c !in f.name && c !in Render(f.number)
    ensures c !in Tokens(features)
  {
    if features != [] {
      assert features[0] in features;
      assert forall f :: f in features[1..] ==> f in features;
      CharNotInTokens(c, features[1..]);
    }
  }

  /** A feature whose name and weight hold no space is one token. */
  predicate SpaceFree(f: NameNumber)
  {
    ' ' !in f.name && ' ' !in Render(f.number)
  }

  /**
   * Splitting a line (without its terminator) at spaces gives back the
   * outcome and then exactly the feature tokens in list order, or the outcome
   * and the sentinel `null=0` when there are no features.
   */
  lemma LineFields(outcome: string, features: seq<NameNumber>)
    requires ' ' !in outcome
    requires forall f :: f in features ==> SpaceFree(f)
    ensures Fields(Record(outcome, features))
        == if features == [] then [outcome, "null=0"] else [outcome] + TokenTexts(features)
  {
    forall f | f in features
      ensures ' ' !in Token(f)
    {
      assert SpaceFree(f);
    }
    if features == [] {
      var sentinel := "null=0";
      assert forall j :: 0 <= j < |sentinel| ==> sentinel[j] != ' ';
      assert Fields(sentinel) == [sentinel];
      assert Record(outcome, features) == outcome + " " + sentinel;
      FieldsSplit(outcome, sentinel);
    } else {
      FieldsOfTokens(outcome, features);
    }
  }

  /** When no part holds a line break, the line holds exactly one, at its end. */
  lemma LineHasOneTerminator(outcome: string, features: seq<NameNumber>)
    requires '\n' !in outcome
    requires forall f :: f in features ==> '\n' !in f.name && '\n' !in Render(f.number)
    ensures var line := Line(outcome, features);
      line[|line| - 1] == '\n' && '\n' !in line[..|line| - 1]
  {
    var record := Record(outcome, features);
    CharNotInTokens('\n', features);
    assert Line(outcome, features)[..|record|] == record;
  }

  /** Printing `more` after `printed` on the same handle prints `printed + more`. */
  lemma PrintedAgain(writers: seq<Handle>, w: nat, before: Handle, printed: string, more: string)
    requires w < |writers|
    ensures var now := writers[w := Printed(before, printed)];
      now[w := Printed(now[w], more)] == writers[w := Printed(before, printed + more)]
  {
    assert before.text + printed + more == before.text + (printed + more);
  }

  /** Printing a space and then a feature's token extends the printed tokens by that feature. */
  lemma PrintedTokensStep(writers: seq<Handle>, w: nat, before: Handle, done: seq<NameNumber>, f: NameNumber)
    requires w < |writers|
    ensures var printed := writers[w := Printed(before, Tokens(done))];
      var spaced := printed[w := Printed(printed[w], " ")];
      spaced[w := Printed(spaced[w], Token(f))] == writers[w := Printed(before, Tokens(done + [f]))]
  {
    TokensSnoc(done, f);
    assert before.text + Tokens(done) + " " + Token(f) == before.text + Tokens(done + [f]);
  }

  // ---------------------------------------------------------------------------
  // The writer

  class TestDataWriter<Raw, In> {
    /**
     * Stands in for the JarDataWriter superclass, which is not part of this
     * model, for its registry of handles and `getPrintWriter`.
     */
    const base: SequentialDataWriter<Raw, In, Option<string>, seq<NameNumber>>
    /** The position of the training-data handle in the registry. */
    const trainingDataWriter: nat

    ghost predicate Valid()
      reads this, base
    {
      base.Valid() && trainingDataWriter < |base.writers|
      && base.writers[trainingDataWriter].file == base.GetFile(TrainingDataFileName)
    }

    /** A writer for `outputDirectory` whose registry holds the training-data handle and nothing else. */
    constructor (outputDirectory: Path, defaultBuilder: ClassifierBuilder, directories: set<Path>)
      ensures Valid() && fresh(base) && !base.finished
      ensures base.outputDirectory == outputDirectory && base.defaultBuilder == defaultBuilder
      ensures base.writers == [OpenHandle(outputDirectory + [TrainingDataFileName])]
      ensures trainingDataWriter == 0
      ensures base.classifierManifest == FreshManifest && base.trace == []
      ensures base.featuresEncoder == None && base.outcomeEncoder == None
      ensures base.directories == if outputDirectory in directories then directories
                                  else directories + WithAncestors(outputDirectory)
    {
      var writer := new SequentialDataWriter(outputDirectory, defaultBuilder, directories);
      var index := writer.GetPrintWriter(TrainingDataFileName);
      base := writer;
      trainingDataWriter := index;
    }

    /**
     * Print one line for an encoded instance. A missing outcome is an error
     * and nothing is printed; otherwise exactly `Line(outcome, features)` is
     * appended to the training-data handle and nothing else changes.
     */
    method WriteEncoded(features: seq<NameNumber>, outcome: Option<string>) returns (result: Outcome<WriteError>)
      requires Valid() && !base.finished
      modifies base`writers
      ensures Valid()
      ensures outcome.None? ==> result == Fail(MissingOutcome) && base.writers == old(base.writers)
      ensures outcome.Some? ==>
        result == Pass &&
        base.writers == old(base.writers)[trainingDataWriter :=
          Printed(old(base.writers[trainingDataWriter]), Line(outcome.value, features))]
    {
      if outcome.None? {
        return Fail(MissingOutcome);
      }
      ghost var start := base.writers;
      ghost var before := start[trainingDataWriter];
      assert before.text + "" == before.text;
      assert start == start[trainingDataWriter := Printed(before, "")];
      ghost var printed := "";
      Print(outcome.value);
      PrintedAgain(start, trainingDataWriter, before, printed, outcome.value);
      printed := printed + outcome.value;
      if |features| == 0 {
        Print(NoFeatures);
        PrintedAgain(start, trainingDataWriter, before, printed, NoFeatures);
        printed := printed + NoFeatures;
      }
      PrintFeatures(features);
      PrintedAgain(start, trainingDataWriter, before, printed, Tokens(features));
      printed := printed + Tokens(features);
      Print(LineTerminator);
      PrintedAgain(start, trainingDataWriter, before, printed, LineTerminator);
      printed := printed + LineTerminator;
      assert printed == Line(outcome.value, features);
      return Pass;
    }

    /** Print each feature's token, preceded by a space, in list order. */
    method PrintFeatures(features: seq<NameNumber>)
      requires Valid() && !base.finished
      modifies base`writers
      ensures Valid()
      ensures base.writers == old(base.writers)[trainingDataWriter :=
        Printed(old(base.writers[trainingDataWriter]), Tokens(features))]
    {
      ghost var before := base.writers[trainingDataWriter];
      assert features[..0] == [];
      assert before.text + "" == before.text;
      assert base.writers == old(base.writers)[trainingDataWriter := Printed(before, "")];
      for i := 0 to |features|
        invariant Valid()
        invariant base.writers == old(base.writers)[trainingDataWriter := Printed(before, Tokens(features[..i]))]
      {
        Print(" ");
        var feature := features[i];
        if feature.number.doubleValue == 1.0 {
          Print(feature.name);
        } else {
          Print(feature.name + "=" + feature.number.rendering);
        }
        assert features[..i + 1] == features[..i] + [feature];
        PrintedTokensStep(old(base.writers), trainingDataWriter, before, features[..i], feature);
      }
      assert features[..|features|] == features;
    }

    /** `trainingDataWriter.print(s)`. */
    method Print(s: string)
      requires Valid() && !base.finished
      modifies base`writers
      ensures Valid()
      ensures base.writers == old(base.writers)[trainingDataWriter := Printed(old(base.writers[trainingDataWriter]), s)]
    {
      base.writers := base.writers[trainingDataWriter := Printed(base.writers[trainingDataWriter], s)];
    }
  }
}
