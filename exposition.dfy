/** The text exposition format the exporter writes: for each metric a type
    comment `# TYPE <name> <kind>` on one line and `<name> <value>` on the
    next, metrics separated by blank lines. Lines are modelled as values; how a
    number is turned into digits is left abstract (a Sample records the value
    and the printf verb that renders it). */
module Exposition {

  datatype Kind = Counter | Gauge

  /** A value as the format string renders it: `%d` for an integer, `%.Nf`
      for a decimal with N places. */
  datatype Sample = Integer(i: int) | Decimal(x: real, places: nat)

  datatype Metric = Metric(name: string, kind: Kind, sample: Sample)

  /** One newline-terminated line of output: the type comment, the value line,
      or filler text (a blank line, or the indentation a format string leaves
      before its final newline). */
  datatype Line =
    | TypeLine(name: string, kind: Kind)
    | SampleLine(name: string, sample: Sample)
    | Filler(text: string)

  /** The type comment and value line of every metric, in order, with a blank
      line between consecutive metrics. */
  function Entries(ms: seq<Metric>): seq<Line>
  {
    if |ms| == 0 then []
    else
      var pair := [TypeLine(ms[0].name, ms[0].kind), SampleLine(ms[0].name, ms[0].sample)];
      if |ms| == 1 then pair else pair + [Filler("")] + Entries(ms[1..])
  }

  /** A whole block as one format string prints it: the string opens with a
      newline, so the block starts with a blank line, and whatever follows the
      last value line up to the closing newline is `trailer`. */
  function Block(ms: seq<Metric>, trailer: string): seq<Line>
  {
    [Filler("")] + Entries(ms) + [Filler(trailer)]
  }

  /** Every value line is immediately preceded by a type comment for the same
      metric. */
  ghost predicate Typed(lines: seq<Line>)
  {
    forall i :: 0 <= i < |lines| && lines[i].SampleLine? ==>
      0 < i && lines[i - 1].TypeLine? && lines[i - 1].name == lines[i].name
  }

  /** How a scraper reads the text back: a type comment followed by a value
      line for the same name yields one metric; anything else is skipped. */
  function Parse(lines: seq<Line>): seq<Metric>
  {
    if |lines| == 0 then []
    else if 2 <= |lines| && lines[0].TypeLine? && lines[1].SampleLine?
            && lines[0].name == lines[1].name then
      [Metric(lines[0].name, lines[0].kind, lines[1].sample)] + Parse(lines[2..])
    else Parse(lines[1..])
  }

  lemma {:induction false} EntriesTyped(ms: seq<Metric>)
    ensures Typed(Entries(ms))
    ensures |ms| > 0 ==> Entries(ms)[0].TypeLine?
    ensures |Entries(ms)| == 3 * |ms| - (if |ms| == 0 then 0 else 1)
  {
    if 1 < |ms| {
      EntriesTyped(ms[1..]);
      var pair := [TypeLine(ms[0].name, ms[0].kind), SampleLine(ms[0].name, ms[0].sample)];
      var tail := Entries(ms[1..]);
      assert Entries(ms) == pair + [Filler("")] + tail;
      forall i | 0 <= i < |Entries(ms)| && Entries(ms)[i].SampleLine?
        ensures 0 < i && Entries(ms)[i - 1].TypeLine?
                && Entries(ms)[i - 1].name == Entries(ms)[i].name
      {
        if 3 <= i {
          assert Entries(ms)[i] == tail[i - 3];
          assert Entries(ms)[i - 1] == tail[i - 4];
        }
      }
    }
  }

  /** Joining two well-typed pieces keeps every value line typed, as long as
      the second does not open with a value line. */
  lemma TypedAppend(a: seq<Line>, b: seq<Line>)
    requires Typed(a) && Typed(b)
    requires |b| > 0 ==> !b[0].SampleLine?
    ensures Typed(a + b)
  {
    forall i | 0 <= i < |a + b| && (a + b)[i].SampleLine?
      ensures 0 < i && (a + b)[i - 1].TypeLine? && (a + b)[i - 1].name == (a + b)[i].name
    {
      if |a| <= i {
        assert (a + b)[i] == b[i - |a|];
        assert i - |a| > 0;
        assert (a + b)[i - 1] == b[i - 1 - |a|];
      }
    }
  }

  /** Every block is typed and opens with a blank line. */
  lemma BlockTyped(ms: seq<Metric>, trailer: string)
    ensures Typed(Block(ms, trailer))
    ensures Block(ms, trailer)[0] == Filler("")
  {
    EntriesTyped(ms);
    TypedAppend([Filler("")], Entries(ms));
    TypedAppend([Filler("")] + Entries(ms), [Filler(trailer)]);
  }

  /** A line that is not a type comment contributes nothing when read back. */
  lemma ParseSkip(l: Line, rest: seq<Line>)
    requires !l.TypeLine?
    ensures Parse([l] + rest) == Parse(rest)
  {
    assert ([l] + rest)[1..] == rest;
  }

  /** A type comment followed by its value line reads back as one metric. */
  lemma ParsePair(m: Metric, rest: seq<Line>)
    ensures Parse([TypeLine(m.name, m.kind), SampleLine(m.name, m.sample)] + rest)
            == [m] + Parse(rest)
  {
    var text := [TypeLine(m.name, m.kind), SampleLine(m.name, m.sample)] + rest;
    assert text[2..] == rest;
  }

  /** The entries of two or more metrics, with text after them, are the first
      metric's pair, a blank line, and the entries of the rest. */
  lemma EntriesAppend(ms: seq<Metric>, rest: seq<Line>)
    requires 1 < |ms|
    ensures Entries(ms) + rest
            == [TypeLine(ms[0].name, ms[0].kind), SampleLine(ms[0].name, ms[0].sample)]
               + ([Filler("")] + (Entries(ms[1..]) + rest))
  {
  }

  /** Reading back the entries of a metric list gives exactly that list, in
      order, followed by whatever the rest of the text holds. */
  lemma {:induction false} ParseEntries(ms: seq<Metric>, rest: seq<Line>)
    requires |rest| > 0 ==> rest[0].Filler?
    ensures Parse(Entries(ms) + rest) == ms + Parse(rest)
  {
    if |ms| == 0 {
      assert Entries(ms) + rest == rest;
    } else if |ms| == 1 {
      ParsePair(ms[0], rest);
      assert ms == [ms[0]];
    } else {
      var m := ms[0];
      var pair := [TypeLine(m.name, m.kind), SampleLine(m.name, m.sample)];
      var tailRest := Entries(ms[1..]) + rest;
      calc {
        Parse(Entries(ms) + rest);
        { EntriesAppend(ms, rest); }
        Parse(pair + ([Filler("")] + tailRest));
        { ParsePair(m, [Filler("")] + tailRest); }
        [m] + Parse([Filler("")] + tailRest);
        { ParseSkip(Filler(""), tailRest); }
        [m] + Parse(tailRest);
        { ParseEntries(ms[1..], rest); }
        [m] + (ms[1..] + Parse(rest));
        { assert ms == [m] + ms[1..]; }
        ms + Parse(rest);
      }
    }
  }

  /** Reading back a block gives its metrics in order: a block loses, adds or
      reorders nothing, whatever its trailer and whatever follows it. */
  lemma ParseBlock(ms: seq<Metric>, trailer: string, rest: seq<Line>)
    ensures Parse(Block(ms, trailer) + rest) == ms + Parse(rest)
  {
    var entries := Entries(ms);
    var tailRest := [Filler(trailer)] + rest;
    calc {
      Parse(Block(ms, trailer) + rest);
      { assert Block(ms, trailer) + rest == [Filler("")] + (entries + tailRest); }
      Parse([Filler("")] + (entries + tailRest));
      { ParseSkip(Filler(""), entries + tailRest); }
      Parse(entries + tailRest);
      { ParseEntries(ms, tailRest); }
      ms + Parse(tailRest);
      { ParseSkip(Filler(trailer), rest); }
      ms + Parse(rest);
    }
  }

  /** A printed block on its own is typed, opens with a blank line and reads
      back as exactly its metrics. */
  lemma BlockReadsBack(ms: seq<Metric>, trailer: string)
    ensures Typed(Block(ms, trailer)) && |Block(ms, trailer)| > 0
    ensures Block(ms, trailer)[0] == Filler("")
    ensures Parse(Block(ms, trailer)) == ms
  {
    BlockTyped(ms, trailer);
    ParseBlock(ms, trailer, []);
    assert Block(ms, trailer) + [] == Block(ms, trailer);
    assert ms + Parse([]) == ms;
  }
}
