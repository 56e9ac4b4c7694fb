/**
 * What a description's layout cannot change.
 *
 * A description is read as a map from field to value, whatever its comments,
 * blank lines, line endings and order.
 */
module ChipInsensitivity {
  import opened Basics
  import opened Text
  import opened ChipDescription

  /** The lines that say anything. */
  function Content(lines: seq<Line>): (r: seq<Line>)
    ensures AllFit(lines) ==> AllFit(r)
    ensures forall line :: line in r <==> line in lines && line != Blank
  {
    if lines == [] then []
    else if lines[0] == Blank then Content(lines[1..])
    else [lines[0]] + Content(lines[1..])
  }

  lemma {:induction false} RunOnContent(lines: seq<Line>, p: Progress)
    requires AllFit(lines)
    ensures Run(lines, p) == Run(Content(lines), p)
  {
    if lines != [] {
      var content := Content(lines);
      match lines[0]
      case Blank => RunOnContent(lines[1..], p);
      case Malformed(_) =>
      case Setting(field, value) =>
        RunOnContent(lines[1..], Store(p, field, value));
        assert content[1..] == Content(lines[1..]);
    }
  }

  lemma {:induction false} ContentOfBoth(a: seq<Line>, b: seq<Line>)
    ensures Content(a + b) == Content(a) + Content(b)
  {
    if a == [] {
      assert a + b == b;
    } else {
      assert (a + b)[1..] == a[1..] + b;
      ContentOfBoth(a[1..], b);
    }
  }

  lemma SameContentSameResult(one: string, other: string)
    requires Content(ReadAll(one)) == Content(ReadAll(other))
    ensures Description(one) == Description(other)
  {
    RunOnContent(ReadAll(one), START);
    RunOnContent(ReadAll(other), START);
  }

  // ---- Comments, blank lines and line endings --------------------------

  lemma ReadBoth(a: string, b: string)
    requires WholeLines(a)
    ensures ReadAll(a + b) == ReadAll(a) + ReadAll(b)
  {
    LinesOfJoin(a, b);
    ReadOfJoin(Lines(a), Lines(b));
  }

  lemma ReadFirst(line: string, after: string)
    requires '\n' !in line
    ensures ReadAll(line + "\n" + after) == [ReadLine(line)] + ReadAll(after)
  {
    LinesFirst(line, after);
    ReadOfJoin([line], Lines(after));
    assert Read([line]) == [ReadLine(line)];
  }

  /** Text that says nothing: blank lines and comments. */
  predicate Filler(text: string) {
    WholeLines(text) && Content(ReadAll(text)) == []
  }

  lemma SpacesAndCommentsAreFiller(spaces: string, comment: string)
    requires AllSpace(spaces)
    requires comment == "" || comment[0] == '#'
    requires '\n' !in comment
    ensures Filler(spaces + comment + "\n")
  {
    var line := spaces + comment;
    FoundAt(line, "#", |spaces|);
    assert line[..|spaces|] == spaces;
    TrimIgnoresSpacesBehind("", spaces);
    assert "" + spaces == spaces;
    assert ReadLine(line) == Blank;
    assert line + "\n" + "" == line + "\n";
    ReadFirst(line, "");
  }

  lemma ContentOfJoin(a: string, b: string)
    requires WholeLines(a)
    ensures Content(ReadAll(a + b)) == Content(ReadAll(a)) + Content(ReadAll(b))
  {
    ReadBoth(a, b);
    ContentOfBoth(ReadAll(a), ReadAll(b));
  }

  lemma FillerInFront(filler: string, after: string)
    requires Filler(filler)
    ensures Content(ReadAll(filler + after)) == Content(ReadAll(after))
  {
    ContentOfJoin(filler, after);
  }

  lemma FillerChangesNothing(before: string, filler: string, after: string)
    requires WholeLines(before) && Filler(filler)
    ensures Description(before + (filler + after)) == Description(before + after)
  {
    ContentOfJoin(before, filler + after);
    ContentOfJoin(before, after);
    FillerInFront(filler, after);
    SameContentSameResult(before + (filler + after), before + after);
  }

  lemma TrailingCommentSaysNothing(line: string, spaces: string, comment: string)
    requires AllSpace(spaces)
    requires comment == "" || comment[0] == '#'
    ensures ReadLine(line + spaces + comment) == ReadLine(line)
  {
    var hash := FindFirstOf(line, "#");
    var longer := line + spaces + comment;
    if hash < |line| {
      FoundAt(longer, "#", hash);
      assert longer[..hash] == line[..hash];
    } else {
      FoundAt(longer, "#", |line + spaces|);
      assert longer[..|line + spaces|] == line + spaces;
      assert StripComment(line) == line;
      TrimIgnoresSpacesBehind(line, spaces);
    }
  }

  /** A line may gain trailing space and a comment wherever it stands in the file. */
  lemma TrailingCommentChangesNothing(before: string, line: string, spaces: string, comment: string, after: string)
    requires WholeLines(before)
    requires '\n' !in line && '\n' !in comment && AllSpace(spaces)
    requires comment == "" || comment[0] == '#'
    ensures Description(before + (line + spaces + comment + "\n" + after)) ==
            Description(before + (line + "\n" + after))
  {
    TrailingCommentSaysNothing(line, spaces, comment);
    ReadFirst(line, after);
    ReadFirst(line + spaces + comment, after);
    ReadBoth(before, line + "\n" + after);
    ReadBoth(before, line + spaces + comment + "\n" + after);
  }

  lemma CrLfChangesNothing(text: string)
    ensures Description(WithCrLf(text)) == Description(text)
  {
    LinesOfCrLf(text);
    var a, b := Lines(text), Lines(WithCrLf(text));
    forall i | 0 <= i < |a| ensures ReadLine(b[i]) == ReadLine(a[i]) {
      assert a[i] + "\r" + "" == a[i] + "\r";
      TrailingCommentSaysNothing(a[i], "\r", "");
    }
    assert ReadAll(text) == ReadAll(WithCrLf(text));
  }

  // ---- Order and repetition --------------------------------------------

  type Settings = map<Field, Value>

  predicate WellKinded(m: Settings) {
    forall field <- m :: Fits(field, m[field])
  }

  predicate NothingMalformed(lines: seq<Line>) {
    forall line <- lines :: !line.Malformed?
  }

  /** Every field with the value its last line gives it. */
  function LastWins(lines: seq<Line>): (m: Settings)
    ensures AllFit(lines) ==> WellKinded(m)
  {
    if lines == [] then map[]
    else
      var n := |lines| - 1;
      var m := LastWins(lines[..n]);
      match lines[n]
      case Setting(field, value) => m[field := value]
      case _ => m
  }

  function NumberAt(m: Settings, field: Field): word
    requires WellKinded(m) && IsNumber(field)
  {
    if field in m then m[field].n else 0
  }

  /** The description a map of settings is, every absent field at its default. */
  function LookUp(m: Settings): Progress
    requires WellKinded(m)
  {
    Progress(
      Chip(
        if Name in m then m[Name].text else "", if Reference in m then m[Reference].text else "",
        NumberAt(m, ChipId), if Family in m then m[Family].family else Unknown,
        Region(NumberAt(m, FlashBase), 0), NumberAt(m, FlashSizeReg), NumberAt(m, FlashPageSize),
        Region(NumberAt(m, SramBase), NumberAt(m, SramSize)),
        Region(NumberAt(m, BootromBase), NumberAt(m, BootromSize)),
        Region(NumberAt(m, OptionBase), NumberAt(m, OptionSize)),
        Region(NumberAt(m, OtpBase), NumberAt(m, OtpSize)),
        if FlagList in m then m[FlagList].flags else NO_FLAGS),
      Name in m, ChipId in m, Family in m)
  }

  lemma StoreNumberIsAnUpdate(m: Settings, field: Field, n: word)
    requires WellKinded(m) && IsNumber(field)
    ensures Store(LookUp(m), field, Number(n)) == LookUp(m[field := Number(n)])
  {
  }

  lemma StoreIsAnUpdate(m: Settings, field: Field, value: Value)
    requires WellKinded(m) && Fits(field, value)
    ensures WellKinded(m[field := value])
    ensures Store(LookUp(m), field, value) == LookUp(m[field := value])
  {
    if IsNumber(field) {
      StoreNumberIsAnUpdate(m, field, value.n);
    }
  }

  lemma {:induction false} RunIsALookUp(done: seq<Line>, lines: seq<Line>)
    requires AllFit(done) && AllFit(lines) && NothingMalformed(lines)
    ensures Run(lines, LookUp(LastWins(done))) == Finish(LookUp(LastWins(done + lines)))
    decreases |lines|
  {
    if lines == [] {
      assert done + lines == done;
    } else {
      var next := done + [lines[0]];
      assert next[..|done|] == done;
      assert next + lines[1..] == done + lines;
      if lines[0].Setting? {
        StoreIsAnUpdate(LastWins(done), lines[0].field, lines[0].value);
      }
      RunIsALookUp(next, lines[1..]);
    }
  }

  /** The first malformed line is what a description is refused for, whatever follows it. */
  lemma {:induction false} FirstFaultIsReported(lines: seq<Line>, p: Progress, at: nat)
    requires AllFit(lines) && at < |lines| && lines[at].Malformed? && NothingMalformed(lines[..at])
    ensures Run(lines, p) == Rejected(lines[at].fault)
  {
    if at > 0 {
      assert lines[0] in lines[..at];
      assert lines[1..][..at - 1] == lines[..at][1..];
      var next := if lines[0].Setting? then Store(p, lines[0].field, lines[0].value) else p;
      FirstFaultIsReported(lines[1..], next, at - 1);
    }
  }

  lemma {:induction false} FirstFault(lines: seq<Line>) returns (at: nat)
    requires !NothingMalformed(lines)
    ensures at < |lines| && lines[at].Malformed? && NothingMalformed(lines[..at])
  {
    if lines[0].Malformed? {
      at := 0;
    } else {
      at := FirstFault(lines[1..]);
      at := at + 1;
      assert lines[..at] == [lines[0]] + lines[1..][..at - 1];
    }
  }

  lemma NothingLookedUp()
    ensures LookUp(LastWins([])) == START
  {
  }

  lemma LookedUpIsFinished(m: Settings)
    requires WellKinded(m)
    ensures Finish(LookUp(m)) == if Name in m && ChipId in m && Family in m then Described(LookUp(m).chip)
                                 else Rejected(Incomplete)
  {
  }

  lemma RunFromTheStart(lines: seq<Line>)
    requires AllFit(lines) && NothingMalformed(lines)
    ensures Run(lines, START) == Finish(LookUp(LastWins(lines)))
  {
    hide LastWins, LookUp, Run, Finish;
    NothingLookedUp();
    assert [] + lines == lines;
    RunIsALookUp([], lines);
  }

  lemma WellFormedIsFinished(text: string)
    requires NothingMalformed(ReadAll(text))
    ensures Description(text) == Finish(LookUp(LastWins(ReadAll(text))))
  {
    RunFromTheStart(ReadAll(text));
  }

  /** What is read of lines none of which is malformed. */
  lemma WellFormedIsALookUp(text: string)
    requires NothingMalformed(ReadAll(text))
    ensures var m := LastWins(ReadAll(text));
            Description(text) == if Name in m && ChipId in m && Family in m then Described(LookUp(m).chip)
                                 else Rejected(Incomplete)
  {
    hide LastWins, LookUp, Finish, NothingMalformed, Description, ReadAll, WellKinded;
    WellFormedIsFinished(text);
    LookedUpIsFinished(LastWins(ReadAll(text)));
  }

  /**
   * The whole of what parsing means: a description is read exactly if none of
   * its lines is malformed and there is a name, an identifier and a family
   * among them, and then as its last-wins map looked up.
   */
  lemma DescriptionIsALookUp(text: string)
    ensures var lines := ReadAll(text); var m := LastWins(lines);
            && (Description(text).Described? <==> NothingMalformed(lines) && Name in m && ChipId in m && Family in m)
            && (Description(text).Described? ==> Description(text).chip == LookUp(m).chip)
            && (NothingMalformed(lines) && Description(text).Rejected? ==> Description(text).fault == Incomplete)
  {
    hide Description, LookUp, LastWins;
    if NothingMalformed(ReadAll(text)) {
      WellFormedIsALookUp(text);
    } else {
      var at := FirstFault(ReadAll(text));
      FirstFaultIsGiven(text, at);
    }
  }

  /** And what it is turned down for is the first fault there is. */
  lemma FirstFaultIsGiven(text: string, at: nat)
    requires at < |ReadAll(text)| && ReadAll(text)[at].Malformed? && NothingMalformed(ReadAll(text)[..at])
    ensures Description(text) == Rejected(ReadAll(text)[at].fault)
  {
    FirstFaultIsReported(ReadAll(text), START, at);
  }

  predicate DistinctFields(lines: seq<Line>) {
    forall i, j :: 0 <= i < j < |lines| && lines[i].Setting? && lines[j].Setting? ==> lines[i].field != lines[j].field
  }

  lemma {:induction false} LastWinsOfDistinct(lines: seq<Line>)
    requires DistinctFields(lines)
    ensures forall field :: field in LastWins(lines) ==> Setting(field, LastWins(lines)[field]) in lines
    ensures forall field, value :: Setting(field, value) in lines ==>
              field in LastWins(lines) && LastWins(lines)[field] == value
  {
    if lines != [] {
      var n := |lines| - 1;
      LastWinsOfDistinct(lines[..n]);
      assert lines == lines[..n] + [lines[n]];
    }
  }

  lemma SameSettingsSameMap(one: seq<Line>, other: seq<Line>)
    requires DistinctFields(one) && DistinctFields(other)
    requires forall line: Line :: line != Blank ==> (line in one <==> line in other)
    ensures LastWins(one) == LastWins(other)
  {
    LastWinsOfDistinct(one);
    LastWinsOfDistinct(other);
    var a, b := LastWins(one), LastWins(other);
    forall field | field in a ensures field in b && a[field] == b[field] {
      assert Setting(field, a[field]) in other;
    }
    forall field | field in b ensures field in a {
      assert Setting(field, b[field]) in one;
    }
  }

  /** Up to which of several faults is reported, two results are the same. */
  predicate Agree(one: Parsed, other: Parsed) {
    one == other || (one.Rejected? && other.Rejected?)
  }

  lemma ResultOfSettings(one: string, other: string)
    requires forall line: Line :: line.Malformed? ==> (line in ReadAll(one) <==> line in ReadAll(other))
    requires NothingMalformed(ReadAll(one)) ==> LastWins(ReadAll(one)) == LastWins(ReadAll(other))
    ensures Agree(Description(one), Description(other))
    ensures NothingMalformed(ReadAll(one)) ==> Description(one) == Description(other)
  {
    DescriptionIsALookUp(one);
    DescriptionIsALookUp(other);
  }

  /** Lines with distinct fields may come in any order. */
  lemma OrderChangesNothing(one: string, other: string)
    requires multiset(Content(ReadAll(one))) == multiset(Content(ReadAll(other)))
    requires DistinctFields(ReadAll(one)) && DistinctFields(ReadAll(other))
    ensures Agree(Description(one), Description(other))
    ensures NothingMalformed(ReadAll(one)) ==> Description(one) == Description(other)
  {
    var a, b := ReadAll(one), ReadAll(other);
    forall line | line != Blank ensures line in a <==> line in b {
      assert line in Content(a) <==> line in multiset(Content(a));
      assert line in Content(b) <==> line in multiset(Content(b));
    }
    SameSettingsSameMap(a, b);
    ResultOfSettings(one, other);
  }

  /** A repeated field takes its last value: what came before on it might as well not be there. */
  lemma LaterLineWins(before: string, earlier: string, between: string, later: string, after: string)
    requires WholeLines(before) && WholeLines(between)
    requires '\n' !in earlier && '\n' !in later
    requires ReadLine(earlier).Setting? && ReadLine(later).Setting?
    requires ReadLine(earlier).field == ReadLine(later).field
    ensures var tail := between + (later + "\n" + after);
            Agree(Description(before + (earlier + "\n" + tail)), Description(before + tail))
  {
    var tail := between + (later + "\n" + after);
    var long, short := before + (earlier + "\n" + tail), before + tail;
    var x, y, z := ReadAll(before), ReadAll(between), ReadAll(after);
    var e, l := ReadLine(earlier), ReadLine(later);
    ReadFirst(later, after);
    ReadBoth(between, later + "\n" + after);
    ReadFirst(earlier, tail);
    ReadBoth(before, earlier + "\n" + tail);
    ReadBoth(before, tail);
    assert ReadAll(tail) == y + ([l] + z);
    assert ReadAll(long) == x + ([e] + (y + ([l] + z)));
    assert ReadAll(short) == x + (y + ([l] + z));
    OverwrittenSettingIsGone(x, e, y, l, z);
    ResultOfSettings(long, short);
  }

  lemma {:induction false} LastWinsSplit(a: seq<Line>, b: seq<Line>)
    ensures LastWins(a + b) == LastWins(a) + LastWins(b)
  {
    if b == [] {
      assert a + b == a;
    } else {
      var n := |b| - 1;
      assert (a + b)[..|a + b| - 1] == a + b[..n];
      LastWinsSplit(a, b[..n]);
    }
  }

  lemma OverwrittenKeyIsGone(x: Settings, e: Settings, y: Settings, l: Settings, z: Settings)
    requires e.Keys <= l.Keys
    ensures x + (e + (y + (l + z))) == x + (y + (l + z))
  {
  }

  lemma OverwrittenSettingIsGone(x: seq<Line>, e: Line, y: seq<Line>, l: Line, z: seq<Line>)
    requires e.Setting? && l.Setting? && e.field == l.field
    ensures LastWins(x + ([e] + (y + ([l] + z)))) == LastWins(x + (y + ([l] + z)))
  {
    LastWinsSplit([l], z);
    LastWinsSplit(y, [l] + z);
    LastWinsSplit([e], y + ([l] + z));
    LastWinsSplit(x, [e] + (y + ([l] + z)));
    LastWinsSplit(x, y + ([l] + z));
    LastWinsOfOne(e);
    LastWinsOfOne(l);
    OverwrittenKeyIsGone(LastWins(x), LastWins([e]), LastWins(y), LastWins([l]), LastWins(z));
  }

  lemma LastWinsOfOne(line: Line)
    requires line.Setting?
    ensures LastWins([line]) == map[line.field := line.value]
  {
    assert [line][..0] == [];
  }
}
