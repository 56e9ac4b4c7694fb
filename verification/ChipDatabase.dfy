/** The chips on file: a vector that behaves as a map from identifier to description. */
module ChipDatabase {
  import opened Basics
  import opened ChipDescription

  /** Where the first chip with this identifier is, or the length when there is none. */
  function Position(chips: seq<Chip>, id: word): (at: nat)
    ensures at <= |chips|
    ensures at < |chips| ==> chips[at].chipId == id
    ensures forall i :: 0 <= i < at ==> chips[i].chipId != id
  {
    if chips == [] || chips[0].chipId == id then 0 else 1 + Position(chips[1..], id)
  }

  function Found(chips: seq<Chip>, id: word): Option<Chip> {
    var at := Position(chips, id);
    if at < |chips| then Some(chips[at]) else None
  }

  function Added(chips: seq<Chip>, chip: Chip): seq<Chip> {
    var at := Position(chips, chip.chipId);
    if at < |chips| then chips[at := chip] else chips + [chip]
  }

  /** What a directory holds: each file's text, or nothing where it cannot be read. */
  type Directory = seq<Option<string>>

  function ParsedFile(file: Option<string>): (chip: Option<Chip>) {
    match file
    case None => None
    case Some(text) =>
      match Description(text)
      case Described(chip) => Some(chip)
      case Rejected(_) => None
  }

  /** What each file describes, if it describes anything. */
  function Entries(files: Directory): (entries: seq<Option<Chip>>)
    ensures |entries| == |files|
    ensures forall i :: 0 <= i < |files| ==> entries[i] == ParsedFile(files[i])
  {
    seq(|files|, i requires 0 <= i < |files| => ParsedFile(files[i]))
  }

  /** The chips there are, in the order they come. */
  function Present(entries: seq<Option<Chip>>): (chips: seq<Chip>) {
    if entries == [] then []
    else
      var front, last := Present(entries[..|entries| - 1]), entries[|entries| - 1];
      if last.Some? then front + [last.value] else front
  }

  function AllAdded(chips: seq<Chip>, more: seq<Chip>): seq<Chip> {
    if more == [] then chips else Added(AllAdded(chips, more[..|more| - 1]), more[|more| - 1])
  }

  function Loaded(chips: seq<Chip>, files: Directory): seq<Chip> {
    AllAdded(chips, Present(Entries(files)))
  }

  class Database {
    var chips: seq<Chip>

    constructor ()
      ensures chips == []
    {
      chips := [];
    }

    method Find(id: word) returns (r: Option<Chip>)
      ensures r == Found(chips, id)
    {
      var i := 0;
      while i < |chips|
        invariant 0 <= i <= |chips|
        invariant forall j :: 0 <= j < i ==> chips[j].chipId != id
      {
        if chips[i].chipId == id {
          FirstIsThePosition(chips, id, i);
          return Some(chips[i]);
        }
        i := i + 1;
      }
      r := None;
    }

    method Add(chip: Chip)
      modifies this
      ensures chips == Added(old(chips), chip)
    {
      var existing := 0;
      while existing < |chips| && chips[existing].chipId != chip.chipId
        invariant 0 <= existing <= |chips|
        invariant forall j :: 0 <= j < existing ==> chips[j].chipId != chip.chipId
      {
        existing := existing + 1;
      }
      FirstIsThePosition(chips, chip.chipId, existing);
      chips := if existing < |chips| then chips[existing := chip] else chips + [chip];
    }

    /** `files` is none when the directory is not there. */
    method AddDirectory(files: Option<Directory>) returns (added: nat)
      modifies this
      ensures files.None? ==> added == 0 && chips == old(chips)
      ensures files.Some? ==> chips == Loaded(old(chips), files.value) && added == |Present(Entries(files.value))|
    {
      hide ParsedFile, Added, Entries;
      added := 0;
      if files.None? {
        return;
      }
      ghost var entries := Entries(files.value);
      var i := 0;
      while i < |files.value|
        invariant 0 <= i <= |files.value|
        invariant chips == AllAdded(old(chips), Present(entries[..i]))
        invariant added == |Present(entries[..i])|
      {
        var chip := ReadFile(files.value[i]);
        assert entries[..i + 1][..i] == entries[..i];
        if chip.Some? {
          assert Present(entries[..i + 1])[..added] == Present(entries[..i]);
          Add(chip.value);
          added := added + 1;
        }
        i := i + 1;
      }
      assert entries[..i] == entries;
    }

    method ReadFile(file: Option<string>) returns (chip: Option<Chip>)
      ensures chip == ParsedFile(file)
    {
      if file.None? {
        return None;
      }
      var parsed := ParseChipDescription(file.value);
      chip := if parsed.Described? then Some(parsed.chip) else None;
    }
  }

  lemma FirstIsThePosition(chips: seq<Chip>, id: word, at: nat)
    requires at <= |chips|
    requires forall j :: 0 <= j < at ==> chips[j].chipId != id
    requires at < |chips| ==> chips[at].chipId == id
    ensures Position(chips, id) == at
  {
  }

  // ---- It is a map -----------------------------------------------------

  predicate DistinctIds(chips: seq<Chip>) {
    forall i, j :: 0 <= i < j < |chips| ==> chips[i].chipId != chips[j].chipId
  }

  /** Every identifier with the last chip that has it. */
  function AsMap(chips: seq<Chip>): map<word, Chip> {
    if chips == [] then map[]
    else
      var last := chips[|chips| - 1];
      AsMap(chips[..|chips| - 1])[last.chipId := last]
  }

  lemma {:induction false} MapHoldsTheChips(chips: seq<Chip>)
    ensures forall id <- AsMap(chips) :: AsMap(chips)[id].chipId == id && AsMap(chips)[id] in chips
    ensures forall chip <- chips :: chip.chipId in AsMap(chips)
  {
    if chips != [] {
      var front := chips[..|chips| - 1];
      MapHoldsTheChips(front);
      assert chips == front + [chips[|chips| - 1]];
    }
  }

  lemma {:induction false} FindIsALookup(chips: seq<Chip>, id: word)
    requires DistinctIds(chips)
    ensures Found(chips, id) == if id in AsMap(chips) then Some(AsMap(chips)[id]) else None
  {
    MapHoldsTheChips(chips);
  }

  lemma {:induction false} SizeIsTheMapSize(chips: seq<Chip>)
    requires DistinctIds(chips)
    ensures |chips| == |AsMap(chips)|
  {
    if chips != [] {
      var front := chips[..|chips| - 1];
      SizeIsTheMapSize(front);
      MapHoldsTheChips(front);
      assert chips[|chips| - 1].chipId !in AsMap(front);
    }
  }

  lemma {:induction false} AddIsAnUpdate(chips: seq<Chip>, chip: Chip)
    requires DistinctIds(chips)
    ensures DistinctIds(Added(chips, chip))
    ensures AsMap(Added(chips, chip)) == AsMap(chips)[chip.chipId := chip]
  {
    hide Position;
    var at := Position(chips, chip.chipId);
    if at < |chips| {
      hide AsMap, DistinctIds;
      ReplaceIsAnUpdate(chips, at, chip);
    } else {
      assert (chips + [chip])[..|chips|] == chips;
    }
  }

  lemma {:induction false} ReplaceIsAnUpdate(chips: seq<Chip>, at: nat, chip: Chip)
    requires DistinctIds(chips) && at < |chips| && chips[at].chipId == chip.chipId
    ensures AsMap(chips[at := chip]) == AsMap(chips)[chip.chipId := chip]
  {
    var n := |chips| - 1;
    var front, last := chips[..n], chips[n];
    if at == n {
      assert chips[at := chip][..n] == front;
    } else {
      ReplaceIsAnUpdate(front, at, chip);
      assert chips[at := chip][..n] == front[at := chip];
      assert AsMap(chips[at := chip]) == AsMap(front)[chip.chipId := chip][last.chipId := last];
    }
  }

  lemma {:induction false} AddingAllIsAMerge(chips: seq<Chip>, more: seq<Chip>)
    requires DistinctIds(chips)
    ensures DistinctIds(AllAdded(chips, more))
    ensures AsMap(AllAdded(chips, more)) == AsMap(chips) + AsMap(more)
  {
    if more != [] {
      hide Added, DistinctIds, AsMap;
      var front, last := more[..|more| - 1], more[|more| - 1];
      AddingAllIsAMerge(chips, front);
      AddIsAnUpdate(AllAdded(chips, front), last);
      MapOfLast(more);
      UpdateOfMerge(AsMap(chips), AsMap(front), last.chipId, last);
    } else {
      assert AsMap(chips) + AsMap(more) == AsMap(chips);
    }
  }

  lemma MapOfLast(chips: seq<Chip>)
    requires chips != []
    ensures var last := chips[|chips| - 1]; AsMap(chips) == AsMap(chips[..|chips| - 1])[last.chipId := last]
  {
  }

  lemma UpdateOfMerge(a: map<word, Chip>, b: map<word, Chip>, id: word, chip: Chip)
    ensures (a + b)[id := chip] == a + b[id := chip]
  {
  }

  // ---- Whole runs ------------------------------------------------------

  datatype Operation = Adding(chip: Chip) | Loading(files: Directory)

  function Written(op: Operation): seq<Chip> {
    match op
    case Adding(chip) => [chip]
    case Loading(files) => Present(Entries(files))
  }

  function Operated(chips: seq<Chip>, op: Operation): seq<Chip> {
    match op
    case Adding(chip) => Added(chips, chip)
    case Loading(files) => Loaded(chips, files)
  }

  function AfterAll(ops: seq<Operation>): seq<Chip> {
    if ops == [] then [] else Operated(AfterAll(ops[..|ops| - 1]), ops[|ops| - 1])
  }

  /** Every chip ever handed to the database, in order. */
  function AllWritten(ops: seq<Operation>): seq<Chip> {
    if ops == [] then [] else AllWritten(ops[..|ops| - 1]) + Written(ops[|ops| - 1])
  }

  lemma {:induction false} MapOfJoin(a: seq<Chip>, b: seq<Chip>)
    ensures AsMap(a + b) == AsMap(a) + AsMap(b)
  {
    if b == [] {
      assert a + b == a;
    } else {
      var n := |b| - 1;
      var last := b[n];
      MapOfJoin(a, b[..n]);
      assert (a + b)[..|a + b| - 1] == a + b[..n] && (a + b)[|a + b| - 1] == last;
      assert AsMap(a + b) == AsMap(a + b[..n])[last.chipId := last];
    }
  }

  lemma OneIsAddedAsAll(chips: seq<Chip>, chip: Chip)
    ensures AllAdded(chips, [chip]) == Added(chips, chip)
  {
    hide Added;
    var more := [chip];
    assert more[..|more| - 1] == [];
    assert AllAdded(chips, []) == chips;
  }

  lemma {:induction false} OperationIsAMerge(chips: seq<Chip>, op: Operation)
    requires DistinctIds(chips)
    ensures DistinctIds(Operated(chips, op))
    ensures AsMap(Operated(chips, op)) == AsMap(chips) + AsMap(Written(op))
  {
    hide Added, AllAdded, AsMap, DistinctIds, Present, Entries;
    AddingAllIsAMerge(chips, Written(op));
    if op.Adding? {
      OneIsAddedAsAll(chips, op.chip);
    }
  }

  /** After any run the vector is the last-write-wins map of everything written to it. */
  lemma {:induction false} DatabaseIsAMap(ops: seq<Operation>)
    ensures var chips, m := AfterAll(ops), AsMap(AllWritten(ops));
            && DistinctIds(chips)
            && AsMap(chips) == m
            && |chips| == |m|
            && forall id :: Found(chips, id) == if id in m then Some(m[id]) else None
  {
    if ops != [] {
      var before, last := ops[..|ops| - 1], ops[|ops| - 1];
      DatabaseIsAMap(before);
      OperationIsAMerge(AfterAll(before), last);
      MapOfJoin(AllWritten(before), Written(last));
    }
    SizeIsTheMapSize(AfterAll(ops));
    forall id ensures var m := AsMap(AllWritten(ops));
                      Found(AfterAll(ops), id) == if id in m then Some(m[id]) else None
    {
      FindIsALookup(AfterAll(ops), id);
    }
  }

  // ---- Directory order -------------------------------------------------

  lemma {:induction false} PresentIsWhatIsThere(entries: seq<Option<Chip>>)
    ensures forall chip :: chip in Present(entries) <==> Some(chip) in entries
  {
    if entries != [] {
      var front, last := entries[..|entries| - 1], entries[|entries| - 1];
      PresentIsWhatIsThere(front);
      assert entries == front + [last];
    }
  }

  lemma MapOfDistinct(one: seq<Chip>, other: seq<Chip>)
    requires DistinctIds(one)
    requires forall chip :: chip in one <==> chip in other
    ensures AsMap(one) == AsMap(other)
  {
    MapHoldsTheChips(one);
    MapHoldsTheChips(other);
    var a, b := AsMap(one), AsMap(other);
    forall id | id in a ensures id in b && b[id] == a[id] {
      assert a[id] in other;
      assert b[id] in one && a[id] in one;
    }
    forall id | id in b ensures id in a {
      assert b[id] in one;
    }
  }

  lemma SameFilesSameEntries(one: Directory, other: Directory)
    requires multiset(one) == multiset(other)
    ensures forall entry <- Entries(one) :: entry in Entries(other)
  {
    forall i | 0 <= i < |one| ensures Entries(one)[i] in Entries(other) {
      assert one[i] in multiset(one) && one[i] in multiset(other) && one[i] in other;
      var j :| 0 <= j < |other| && other[j] == one[i];
      assert Entries(other)[j] == Entries(one)[i];
    }
  }

  /** A directory whose files have distinct identifiers may be listed in any order. */
  lemma DirectoryOrderDoesNotMatter(chips: seq<Chip>, one: Directory, other: Directory)
    requires DistinctIds(chips)
    requires multiset(one) == multiset(other)
    requires DistinctIds(Present(Entries(one)))
    ensures AsMap(Loaded(chips, one)) == AsMap(Loaded(chips, other))
  {
    AddingAllIsAMerge(chips, Present(Entries(one)));
    AddingAllIsAMerge(chips, Present(Entries(other)));
    SameFilesSameEntries(one, other);
    SameFilesSameEntries(other, one);
    PresentIsWhatIsThere(Entries(one));
    PresentIsWhatIsThere(Entries(other));
    MapOfDistinct(Present(Entries(one)), Present(Entries(other)));
  }

  lemma {:induction false} PresentOfBoth(a: seq<Option<Chip>>, b: seq<Option<Chip>>)
    ensures Present(a + b) == Present(a) + Present(b)
    decreases |b|
  {
    if b == [] {
      assert a + b == a;
    } else {
      var rest := b[..|b| - 1];
      assert (a + b)[..|a + b| - 1] == a + rest;
      assert (a + b)[|a + b| - 1] == b[|b| - 1];
      PresentOfBoth(a, rest);
    }
  }

  /** A file there is no reading, or whose text is not a description. */
  predicate IsBad(file: Option<string>) {
    file.None? || Description(file.value).Rejected?
  }

  /** Files that cannot be read or do not parse change nothing, wherever among the others they come. */
  lemma UnparsableFilesChangeNothing(chips: seq<Chip>, before: Directory, bad: Directory, after: Directory)
    requires forall i :: 0 <= i < |bad| ==> IsBad(bad[i])
    ensures Loaded(chips, before + (bad + after)) == Loaded(chips, before + after)
  {
    hide Present, AllAdded, ParsedFile, IsBad;
    BadHoldsNothing(bad);
    var a, b, c := Entries(before), Entries(bad), Entries(after);
    assert Entries(before + (bad + after)) == a + (b + c);
    assert Entries(before + after) == a + c;
    PresentWithout(a, b, c);
  }

  lemma PresentWithout(a: seq<Option<Chip>>, b: seq<Option<Chip>>, c: seq<Option<Chip>>)
    requires forall i :: 0 <= i < |b| ==> b[i] == None
    ensures Present(a + (b + c)) == Present(a + c)
  {
    PresentOfBoth(a, b + c);
    PresentOfBoth(b, c);
    PresentOfBoth(a, c);
    NothingPresent(b);
    hide Present;
    assert [] + Present(c) == Present(c);
  }

  lemma BadHoldsNothing(bad: Directory)
    requires forall i :: 0 <= i < |bad| ==> IsBad(bad[i])
    ensures forall i :: 0 <= i < |bad| ==> Entries(bad)[i] == None
  {
    hide Description;
    forall i | 0 <= i < |bad| ensures Entries(bad)[i] == None {
      assert IsBad(bad[i]);
    }
  }

  /** The texts of a directory's files that are descriptions, in order. */
  function Readable(files: Directory): (texts: seq<string>)
    ensures forall text <- texts :: Description(text).Described?
  {
    if files == [] then []
    else
      var front, last := Readable(files[..|files| - 1]), files[|files| - 1];
      if last.Some? && Description(last.value).Described? then front + [last.value] else front
  }

  /** And every other file adds just the chip it describes: the last of an identifier is the one that stays. */
  lemma {:induction false} ReadableFilesAreAdded(files: Directory)
    ensures var texts := Readable(files); var added := Present(Entries(files));
            |added| == |texts| && forall i :: 0 <= i < |texts| ==> Described(added[i]) == Description(texts[i])
  {
    hide Description;
    if files != [] {
      var front := files[..|files| - 1];
      ReadableFilesAreAdded(front);
      assert Entries(files)[..|files| - 1] == Entries(front);
    }
  }

  lemma {:induction false} NothingPresent(entries: seq<Option<Chip>>)
    requires forall i :: 0 <= i < |entries| ==> entries[i] == None
    ensures Present(entries) == []
  {
    if entries != [] {
      NothingPresent(entries[..|entries| - 1]);
    }
  }
}
