/**
  Verifying an exported file by itself: repeated keys must repeat their record, and each task's events must be linked
  from sequence 0 and covered by signed heads.
*/
module ExportVerify {
  import opened Options
  import opened AuditExport

  /** `<task>:<sequence>:<hash>` for an event and `<task>:head:<sequence>:<hash>` for a head. */
  datatype Key = Key(prefix: string, sequence: int, hash: Hash)

  datatype Line = Blank | Malformed | Parsed(key: Key, record: Record)

  /** Whether a head's signature verifies under the registry. */
  type Verifier = (string, Head) -> bool

  datatype Verdict = Valid | Invalid | Unverifiable

  // ----- reading ---------------------------------------------------------------------------------------------

  /** A line that fails the file by itself. */
  predicate BadLine(line: Line) { line.Malformed? || (line.Parsed? && line.record.ControlRecord?) }

  predicate Kept(lines: seq<Line>, i: nat)
    requires i < |lines|
  {
    lines[i].Parsed? && !lines[i].record.ControlRecord?
  }

  /** Two lines that claim one key for different records. */
  ghost predicate Conflict(lines: seq<Line>, i: nat, j: nat)
    requires i < |lines| && j < |lines|
  {
    Kept(lines, i) && Kept(lines, j) && lines[i].key == lines[j].key && lines[i].record != lines[j].record
  }

  ghost predicate ReadsCleanly(lines: seq<Line>)
  {
    && (forall i :: 0 <= i < |lines| ==> !BadLine(lines[i]))
    && (forall i, j :: 0 <= i < |lines| && 0 <= j < |lines| ==> !Conflict(lines, i, j))
  }

  /** The record is on some line under this key. */
  ghost predicate OnLine(lines: seq<Line>, key: Key, record: Record)
  {
    exists i :: 0 <= i < |lines| && Kept(lines, i) && lines[i] == Parsed(key, record)
  }

  /** The records under distinct keys, each on a line, and one for every key on a line. */
  ghost predicate Enumerates(keys: seq<Key>, records: seq<Record>, lines: seq<Line>)
  {
    && |keys| == |records|
    && (forall i, j :: 0 <= i < j < |keys| ==> keys[i] != keys[j])
    && (forall i :: 0 <= i < |keys| ==> OnLine(lines, keys[i], records[i]) && !records[i].ControlRecord?)
    && (forall i :: 0 <= i < |lines| && Kept(lines, i) ==> lines[i].key in keys)
  }

  /** Every line so far has its record under its key. */
  ghost predicate Agrees(lines: seq<Line>, n: nat, seen: map<Key, Record>)
  {
    n <= |lines| && forall i :: 0 <= i < n && Kept(lines, i) ==>
      lines[i].key in seen && seen[lines[i].key] == lines[i].record
  }

  /** `read_export`: the first record under each key, in order, and whether nothing contradicted it. */
  method ReadExport(lines: seq<Line>) returns (keys: seq<Key>, records: seq<Record>, clean: bool)
    ensures clean <==> ReadsCleanly(lines)
    ensures Enumerates(keys, records, lines)
  {
    keys, records, clean := [], [], true;
    var seen: map<Key, Record> := map[];
    for n := 0 to |lines|
      invariant clean <==> ReadsCleanly(lines[..n])
      invariant Enumerates(keys, records, lines[..n])
      invariant forall k :: k in seen <==> k in keys
      invariant forall k :: k in seen ==> OnLine(lines[..n], k, seen[k])
      invariant clean ==> Agrees(lines, n, seen)
    {
      var line := lines[n];
      OnLineMore(lines, n);
      DirtyStays(lines, n);
      if line.Malformed? || (line.Parsed? && line.record.ControlRecord?) {
        SkipLine(keys, records, lines, n);
        clean := false;
      } else if line.Blank? {
        SkipLine(keys, records, lines, n);
        if clean { CleanMore(lines, n, seen); }
      } else if line.key in seen {
        SkipLine(keys, records, lines, n);
        if seen[line.key] != line.record {
          ConflictFound(lines, n, seen[line.key]);
          clean := false;
        }
        if clean { CleanMore(lines, n, seen); }
      } else {
        TakeLine(keys, records, lines, n);
        if clean { CleanMore(lines, n, seen); }
        seen := seen[line.key := line.record];
        keys, records := keys + [line.key], records + [line.record];
      }
    }
    assert lines[..|lines|] == lines;
  }

  lemma OnLineMore(lines: seq<Line>, n: nat)
    requires n < |lines|
    ensures forall k, r :: OnLine(lines[..n], k, r) ==> OnLine(lines[..n + 1], k, r)
  {
    var before, after := lines[..n], lines[..n + 1];
    forall k, r | OnLine(before, k, r) ensures OnLine(after, k, r) {
      var i :| 0 <= i < n && Kept(before, i) && before[i] == Parsed(k, r);
      assert Kept(after, i) && after[i] == before[i];
    }
  }

  lemma DirtyStays(lines: seq<Line>, n: nat)
    requires n < |lines|
    ensures ReadsCleanly(lines[..n + 1]) ==> ReadsCleanly(lines[..n]) && !BadLine(lines[n])
  {
    var before, after := lines[..n], lines[..n + 1];
    if ReadsCleanly(after) {
      forall i | 0 <= i < n ensures !BadLine(before[i]) { assert before[i] == after[i]; }
      forall i, j | 0 <= i < n && 0 <= j < n ensures !Conflict(before, i, j) { assert !Conflict(after, i, j); }
      assert !BadLine(after[n]);
    }
  }

  lemma ConflictFound(lines: seq<Line>, n: nat, other: Record)
    requires n < |lines| && Kept(lines, n) && OnLine(lines[..n], lines[n].key, other) && other != lines[n].record
    ensures !ReadsCleanly(lines[..n + 1])
  {
    var i :| 0 <= i < n && Kept(lines[..n], i) && lines[..n][i] == Parsed(lines[n].key, other);
    assert Conflict(lines[..n + 1], i, n);
  }

  lemma CleanMore(lines: seq<Line>, n: nat, seen: map<Key, Record>)
    requires n < |lines| && ReadsCleanly(lines[..n]) && Agrees(lines, n, seen) && !BadLine(lines[n])
    requires Kept(lines, n) && lines[n].key in seen ==> seen[lines[n].key] == lines[n].record
    ensures ReadsCleanly(lines[..n + 1])
  {
    var before, after := lines[..n], lines[..n + 1];
    forall i | 0 <= i <= n ensures !BadLine(after[i]) {
      if i < n { assert after[i] == before[i]; }
    }
    forall i, j | 0 <= i <= n && 0 <= j <= n ensures !Conflict(after, i, j) {
      assert after[i] == lines[i] && after[j] == lines[j];
      if i < n && j < n { assert !Conflict(before, i, j); }
    }
  }

  lemma SkipLine(keys: seq<Key>, records: seq<Record>, lines: seq<Line>, n: nat)
    requires n < |lines| && Enumerates(keys, records, lines[..n]) && (Kept(lines, n) ==> lines[n].key in keys)
    ensures Enumerates(keys, records, lines[..n + 1])
  {
    OnLineMore(lines, n);
    var before, after := lines[..n], lines[..n + 1];
    forall i | 0 <= i < |after| && Kept(after, i) ensures after[i].key in keys {
      if i < n { assert Kept(before, i) && before[i] == after[i]; }
    }
  }

  lemma TakeLine(keys: seq<Key>, records: seq<Record>, lines: seq<Line>, n: nat)
    requires n < |lines| && Enumerates(keys, records, lines[..n]) && Kept(lines, n) && lines[n].key !in keys
    ensures Enumerates(keys + [lines[n].key], records + [lines[n].record], lines[..n + 1])
    ensures OnLine(lines[..n + 1], lines[n].key, lines[n].record)
  {
    OnLineMore(lines, n);
    var before, after := lines[..n], lines[..n + 1];
    var keys' := keys + [lines[n].key];
    assert Kept(after, n) && after[n] == Parsed(lines[n].key, lines[n].record);
    forall i | 0 <= i < |after| && Kept(after, i) ensures after[i].key in keys' {
      if i < n {
        assert Kept(before, i) && before[i] == after[i];
        assert before[i].key in keys;
      } else {
        assert keys'[|keys|] == after[i].key;
      }
    }
  }

  // ----- one task --------------------------------------------------------------------------------------------

  type Chain = map<int, Record>

  /** Exactly the sequences from 0 up. */
  ghost predicate Contiguous(chain: Chain)
  {
    forall q :: q in chain <==> 0 <= q < |chain|
  }

  ghost predicate LinkedAt(chain: Chain, q: int)
    requires q in chain && q - 1 in chain
  {
    chain[q].EventRecord? && chain[q - 1].EventRecord? && chain[q].previous == chain[q - 1].hash
  }

  ghost predicate AllLinked(chain: Chain)
    requires Contiguous(chain)
  {
    forall q :: 1 <= q < |chain| ==> LinkedAt(chain, q)
  }

  predicate HeadMatches(chain: Chain, head: Record)
  {
    && head.HeadRecord? && 1 <= head.sequence <= |chain|
    && head.sequence - 1 in chain && chain[head.sequence - 1].EventRecord?
    && chain[head.sequence - 1].hash == head.hash
  }

  function HeadOf(record: Record): Head
    requires record.HeadRecord?
  {
    Head(record.sequence, record.hash, record.signature)
  }

  predicate HeadAccepted(task: string, head: Record, verifier: Option<Verifier>)
  {
    head.HeadRecord? && (verifier.Some? ==> verifier.value(task, HeadOf(head)))
  }

  /** Nothing in the task contradicts the file. */
  ghost predicate TaskSound(task: string, chain: Chain, heads: seq<Record>, verifier: Option<Verifier>)
  {
    && Contiguous(chain) && AllLinked(chain)
    && forall i :: 0 <= i < |heads| ==> HeadMatches(chain, heads[i]) && HeadAccepted(task, heads[i], verifier)
  }

  /** A head over the last event, or no event to cover. */
  ghost predicate Covered(chain: Chain, heads: seq<Record>)
  {
    |chain| == 0 || exists i :: 0 <= i < |heads| && heads[i].HeadRecord? && heads[i].sequence == |chain|
  }

  /** Everything was checked and everything is covered. */
  ghost predicate TaskProven(chain: Chain, heads: seq<Record>, verifier: Option<Verifier>)
  {
    Covered(chain, heads) && (heads == [] || verifier.Some?)
  }

  /** The links, from the start of the chain. */
  method CheckLinks(chain: Chain) returns (linked: bool)
    requires Contiguous(chain) && forall q :: q in chain ==> chain[q].EventRecord?
    ensures linked <==> AllLinked(chain)
  {
    for q := 1 to |chain| + 1
      invariant forall p :: 1 <= p < q && p < |chain| ==> LinkedAt(chain, p)
    {
      if q == |chain| { break; }
      if chain[q].previous != chain[q - 1].hash {
        assert !LinkedAt(chain, q);
        return false;
      }
    }
    return true;
  }

  /** One turn of the task loop of `verify_records`: whether the task fails, and whether something is left unproven. */
  method VerifyTask(task: string, chain: Chain, heads: seq<Record>, verifier: Option<Verifier>)
    returns (sound: bool, proven: bool)
    requires forall q :: q in chain ==> chain[q].EventRecord?
    requires forall i :: 0 <= i < |heads| ==> heads[i].HeadRecord?
    ensures sound <==> TaskSound(task, chain, heads, verifier)
    ensures sound ==> (proven <==> TaskProven(chain, heads, verifier))
  {
    var contiguous := IsContiguous(chain);
    if !contiguous { return false, false; }
    sound := CheckLinks(chain);
    proven := true;
    var anchored := 0;
    for i := 0 to |heads|
      invariant sound <==> AllLinked(chain) && forall j :: 0 <= j < i ==>
                  HeadMatches(chain, heads[j]) && HeadAccepted(task, heads[j], verifier)
      invariant 0 <= anchored <= |chain|
      invariant sound ==> forall j :: 0 <= j < i ==> heads[j].sequence <= anchored
      invariant anchored > 0 ==> exists j :: 0 <= j < i && heads[j].sequence == anchored
      invariant sound ==> (proven <==> i == 0 || verifier.Some?)
    {
      var head := heads[i];
      if !HeadMatches(chain, head) {
        sound := false;
      } else {
        if head.sequence > anchored { anchored := head.sequence; }
        if verifier.None? {
          proven := false;
        } else if !verifier.value(task, HeadOf(head)) {
          sound := false;
        }
      }
    }
    if |chain| != anchored { proven := false; }
  }

  method IsContiguous(chain: Chain) returns (yes: bool)
    ensures yes <==> Contiguous(chain)
  {
    for q := 0 to |chain|
      invariant forall p :: 0 <= p < q ==> p in chain
    {
      if q !in chain { return false; }
    }
    RangeSize(|chain|);
    forall q | q in Range(|chain|) ensures q in chain.Keys {}
    SubsetFull(Range(|chain|), chain.Keys);
    return true;
  }

  ghost function Range(n: nat): set<int> { if n == 0 then {} else Range(n - 1) + {n - 1} }

  lemma {:induction false} RangeSize(n: nat)
    ensures |Range(n)| == n && forall q :: q in Range(n) <==> 0 <= q < n
  {
    if n > 0 { RangeSize(n - 1); }
  }

  lemma {:induction false} SubsetFull<T>(a: set<T>, b: set<T>)
    requires a <= b && |a| == |b|
    ensures a == b
  {
    if a != {} {
      var x :| x in a;
      SubsetFull(a - {x}, b - {x});
    }
  }

  // ----- the whole file --------------------------------------------------------------------------------------

  /** The first event at each sequence of a task. */
  function ChainOf(records: seq<Record>, task: string): Chain
  {
    if records == [] then map[]
    else
      var before := ChainOf(records[..|records| - 1], task);
      var r := records[|records| - 1];
      if r.EventRecord? && r.task == task && r.sequence !in before then before[r.sequence := r] else before
  }

  function HeadsOf(records: seq<Record>, task: string): seq<Record>
  {
    if records == [] then []
    else
      var before := HeadsOf(records[..|records| - 1], task);
      var r := records[|records| - 1];
      if r.HeadRecord? && r.task == task then before + [r] else before
  }

  predicate Clash(a: Record, b: Record)
  {
    a.EventRecord? && b.EventRecord? && a.task == b.task && a.sequence == b.sequence
  }

  ghost predicate NoClash(records: seq<Record>)
  {
    forall i, j :: 0 <= i < j < |records| ==> !Clash(records[i], records[j])
  }

  ghost predicate Names(records: seq<Record>, task: string)
  {
    exists i :: 0 <= i < |records| && records[i].task == task
  }

  ghost predicate FileSound(records: seq<Record>, verifier: Option<Verifier>)
  {
    && NoClash(records)
    && forall task :: Names(records, task) ==> SoundIn(records, task, verifier)
  }

  ghost predicate FileProven(records: seq<Record>, verifier: Option<Verifier>)
  {
    && records != []
    && forall task :: Names(records, task) ==> ProvenIn(records, task, verifier)
  }

  ghost function VerdictOf(records: seq<Record>, verifier: Option<Verifier>): Verdict
  {
    if !FileSound(records, verifier) then Invalid
    else if FileProven(records, verifier) then Valid
    else Unverifiable
  }

  lemma {:induction false} ChainOfMember(records: seq<Record>, task: string, q: int)
    ensures q in ChainOf(records, task) <==>
              exists i :: 0 <= i < |records| && records[i].EventRecord? && records[i].task == task
                          && records[i].sequence == q
    ensures q in ChainOf(records, task) ==>
              var r := ChainOf(records, task)[q];
              r in records && r.EventRecord? && r.task == task && r.sequence == q
  {
    if records != [] {
      var n := |records| - 1;
      ChainOfMember(records[..n], task, q);
      var r := records[n];
      if r.EventRecord? && r.task == task && r.sequence == q { assert records[n] == r; }
      if q in ChainOf(records[..n], task) {
        var i :| 0 <= i < n && records[..n][i].EventRecord? && records[..n][i].task == task
                 && records[..n][i].sequence == q;
        assert records[i] == records[..n][i];
      }
      if i :| 0 <= i < n && records[i].EventRecord? && records[i].task == task && records[i].sequence == q {
        assert records[..n][i] == records[i];
      }
    }
  }

  lemma {:induction false} HeadsOfMember(records: seq<Record>, task: string, head: Record)
    ensures head in HeadsOf(records, task) <==> head in records && head.HeadRecord? && head.task == task
  {
    if records != [] {
      var n := |records| - 1;
      HeadsOfMember(records[..n], task, head);
      assert records == records[..n] + [records[n]];
    }
  }

  lemma HeadsAreHeads(records: seq<Record>, task: string)
    ensures forall i :: 0 <= i < |HeadsOf(records, task)| ==> HeadsOf(records, task)[i].HeadRecord?
  {
    forall i | 0 <= i < |HeadsOf(records, task)| ensures HeadsOf(records, task)[i].HeadRecord? {
      HeadsOfMember(records, task, HeadsOf(records, task)[i]);
    }
  }

  lemma ChainIsEvents(records: seq<Record>, task: string)
    ensures forall q :: q in ChainOf(records, task) ==> ChainOf(records, task)[q].EventRecord?
  {
    forall q | q in ChainOf(records, task) ensures ChainOf(records, task)[q].EventRecord? {
      ChainOfMember(records, task, q);
    }
  }

  function ChainAt(events: map<string, Chain>, task: string): Chain
  {
    if task in events then events[task] else map[]
  }

  function HeadsAt(heads: map<string, seq<Record>>, task: string): seq<Record>
  {
    if task in heads then heads[task] else []
  }

  ghost predicate SortedAt(records: seq<Record>, events: map<string, Chain>, heads: map<string, seq<Record>>,
                           task: string)
  {
    && ChainAt(events, task) == ChainOf(records, task)
    && HeadsAt(heads, task) == HeadsOf(records, task)
    && (Names(records, task) <==> task in events || task in heads)
  }

  ghost predicate Sorted(records: seq<Record>, events: map<string, Chain>, heads: map<string, seq<Record>>)
  {
    forall task :: SortedAt(records, events, heads, task)
  }

  /** Sorting the records into chains and heads, noting any sequence claimed twice. */
  method Sort(records: seq<Record>) returns (events: map<string, Chain>, heads: map<string, seq<Record>>, clash: bool)
    requires forall i :: 0 <= i < |records| ==> !records[i].ControlRecord?
    ensures clash <==> !NoClash(records)
    ensures Sorted(records, events, heads)
  {
    events, heads, clash := map[], map[], false;
    for n := 0 to |records|
      invariant clash <==> !NoClash(records[..n])
      invariant Sorted(records[..n], events, heads)
    {
      var r := records[n];
      ClashOneMore(records, n);
      assert SortedAt(records[..n], events, heads, r.task);
      if r.EventRecord? {
        var chain := ChainAt(events, r.task);
        if r.sequence in chain {
          clash := true;
          SortKnown(records, n, events, heads);
        } else {
          SortEvent(records, n, events, heads);
          events := events[r.task := chain[r.sequence := r]];
        }
      } else {
        SortHead(records, n, events, heads);
        heads := heads[r.task := HeadsAt(heads, r.task) + [r]];
      }
    }
    assert records[..|records|] == records;
  }

  lemma NamesOneMore(records: seq<Record>, n: nat, task: string)
    requires n < |records|
    ensures Names(records[..n + 1], task) <==> Names(records[..n], task) || task == records[n].task
  {
    var before, after := records[..n], records[..n + 1];
    if Names(before, task) {
      var i :| 0 <= i < n && before[i].task == task;
      assert after[i].task == task;
    }
    assert after[n].task == records[n].task;
    if Names(after, task) && task != records[n].task {
      var i :| 0 <= i < n + 1 && after[i].task == task;
      assert before[i].task == task;
    }
  }

  lemma ClashOneMore(records: seq<Record>, n: nat)
    requires n < |records|
    ensures var r := records[n];
            NoClash(records[..n + 1]) <==>
              NoClash(records[..n]) && !(r.EventRecord? && r.sequence in ChainOf(records[..n], r.task))
  {
    var before, after, r := records[..n], records[..n + 1], records[n];
    assert after == before + [r];
    if r.EventRecord? {
      ChainOfMember(before, r.task, r.sequence);
      if r.sequence in ChainOf(before, r.task) {
        var i :| 0 <= i < n && before[i].EventRecord? && before[i].task == r.task && before[i].sequence == r.sequence;
        assert Clash(after[i], after[n]);
      }
    }
    if NoClash(after) {
      forall i, j | 0 <= i < j < n ensures !Clash(before[i], before[j]) { assert !Clash(after[i], after[j]); }
    }
  }

  lemma SortKnown(records: seq<Record>, n: nat, events: map<string, Chain>, heads: map<string, seq<Record>>)
    requires n < |records| && Sorted(records[..n], events, heads)
    requires records[n].EventRecord? && records[n].sequence in ChainAt(events, records[n].task)
    ensures Sorted(records[..n + 1], events, heads)
  {
    var after := records[..n + 1];
    assert after[..n] == records[..n];
    forall task ensures SortedAt(after, events, heads, task) {
      assert SortedAt(records[..n], events, heads, task);
      NamesOneMore(records, n, task);
    }
  }

  lemma SortEvent(records: seq<Record>, n: nat, events: map<string, Chain>, heads: map<string, seq<Record>>)
    requires n < |records| && Sorted(records[..n], events, heads)
    requires records[n].EventRecord? && records[n].sequence !in ChainAt(events, records[n].task)
    ensures var r := records[n];
            Sorted(records[..n + 1], events[r.task := ChainAt(events, r.task)[r.sequence := r]], heads)
  {
    var r, after := records[n], records[..n + 1];
    var events' := events[r.task := ChainAt(events, r.task)[r.sequence := r]];
    assert after[..n] == records[..n];
    forall task ensures SortedAt(after, events', heads, task) {
      assert SortedAt(records[..n], events, heads, task);
      NamesOneMore(records, n, task);
    }
  }

  lemma SortHead(records: seq<Record>, n: nat, events: map<string, Chain>, heads: map<string, seq<Record>>)
    requires n < |records| && Sorted(records[..n], events, heads) && records[n].HeadRecord?
    ensures var r := records[n];
            Sorted(records[..n + 1], events, heads[r.task := HeadsAt(heads, r.task) + [r]])
  {
    var r, after := records[n], records[..n + 1];
    var heads' := heads[r.task := HeadsAt(heads, r.task) + [r]];
    assert after[..n] == records[..n];
    forall task ensures SortedAt(after, events, heads', task) {
      assert SortedAt(records[..n], events, heads, task);
      NamesOneMore(records, n, task);
    }
  }

  ghost predicate SoundIn(records: seq<Record>, task: string, verifier: Option<Verifier>)
  {
    TaskSound(task, ChainOf(records, task), HeadsOf(records, task), verifier)
  }

  ghost predicate ProvenIn(records: seq<Record>, task: string, verifier: Option<Verifier>)
  {
    TaskProven(ChainOf(records, task), HeadsOf(records, task), verifier)
  }

  /** `verify_records`. */
  method VerifyRecords(records: seq<Record>, verifier: Option<Verifier>) returns (verdict: Verdict)
    requires forall i :: 0 <= i < |records| ==> !records[i].ControlRecord?
    ensures verdict == VerdictOf(records, verifier)
  {
    var events, heads, clash := Sort(records);
    verdict := if clash then Invalid else Valid;
    var tasks := events.Keys + heads.Keys;
    var left := tasks;
    ghost var done: set<string> := {};
    while left != {}
      invariant left + done == tasks
      invariant verdict.Invalid? <==> clash || !(forall task :: task in done ==> SoundIn(records, task, verifier))
      invariant verdict.Valid? ==> forall task :: task in done ==> ProvenIn(records, task, verifier)
      invariant verdict.Unverifiable? ==> exists task :: task in done && !ProvenIn(records, task, verifier)
      decreases left
    {
      var task :| task in left;
      var sound, proven := VerifySorted(records, task, events, heads, verifier);
      left := left - {task};
      done := done + {task};
      if !sound {
        verdict := Invalid;
      } else if !proven && verdict.Valid? {
        verdict := Unverifiable;
      }
    }
    TasksAreNamed(records, events, heads);
    if tasks == {} && verdict.Valid? {
      verdict := Unverifiable;
    }
  }

  method VerifySorted(records: seq<Record>, task: string, events: map<string, Chain>, heads: map<string, seq<Record>>,
                      verifier: Option<Verifier>) returns (sound: bool, proven: bool)
    requires Sorted(records, events, heads)
    ensures sound <==> SoundIn(records, task, verifier)
    ensures sound ==> (proven <==> ProvenIn(records, task, verifier))
  {
    assert SortedAt(records, events, heads, task);
    ChainIsEvents(records, task);
    HeadsAreHeads(records, task);
    sound, proven := VerifyTask(task, ChainAt(events, task), HeadsAt(heads, task), verifier);
  }

  lemma TasksAreNamed(records: seq<Record>, events: map<string, Chain>, heads: map<string, seq<Record>>)
    requires Sorted(records, events, heads)
    ensures forall task :: Names(records, task) <==> task in events.Keys + heads.Keys
    ensures records == [] <==> events.Keys + heads.Keys == {}
  {
    forall task ensures Names(records, task) <==> task in events.Keys + heads.Keys {
      assert SortedAt(records, events, heads, task);
    }
    if records != [] { assert Names(records, records[0].task); }
  }

  // ----- what a valid file is --------------------------------------------------------------------------------

  ghost predicate HasEvent(records: seq<Record>, task: string, sequence: int, hash: Hash)
  {
    exists r :: r in records && r.EventRecord? && r.task == task && r.sequence == sequence && r.hash == hash
  }

  /** Not before 0, and linked to the event before it. */
  ghost predicate EventOk(records: seq<Record>, r: Record)
    requires r.EventRecord?
  {
    r.sequence >= 0 && (r.sequence > 0 ==> HasEvent(records, r.task, r.sequence - 1, r.previous))
  }

  /** Over an exported event, and signed. */
  ghost predicate HeadOk(records: seq<Record>, r: Record, verifier: Option<Verifier>)
    requires r.HeadRecord?
  {
    HasEvent(records, r.task, r.sequence - 1, r.hash) && HeadAccepted(r.task, r, verifier)
  }

  /** Some head lies beyond the event. */
  ghost predicate Anchored(records: seq<Record>, r: Record)
    requires r.EventRecord?
  {
    exists h :: h in records && h.HeadRecord? && h.task == r.task && h.sequence > r.sequence
  }

  ghost predicate AllAnchored(records: seq<Record>)
  {
    forall r {:trigger Anchored(records, r)} :: r in records && r.EventRecord? ==> Anchored(records, r)
  }

  /** The records bear each other out. */
  ghost predicate Consistent(records: seq<Record>, verifier: Option<Verifier>)
  {
    && NoClash(records)
    && (forall r {:trigger EventOk(records, r)} :: r in records && r.EventRecord? ==> EventOk(records, r))
    && (forall r {:trigger HeadOk(records, r, verifier)} :: r in records && r.HeadRecord? ==>
          HeadOk(records, r, verifier))
  }

  ghost predicate StepsDown(chain: Chain, q: int) { q >= 0 && (q > 0 ==> q - 1 in chain) }

  ghost predicate Closed(chain: Chain)
  {
    forall q {:trigger StepsDown(chain, q)} :: q in chain ==> StepsDown(chain, q)
  }

  lemma {:induction false} DownTo(chain: Chain, q: int)
    requires q in chain && Closed(chain) && q >= 0
    ensures forall p :: 0 <= p <= q ==> p in chain
    decreases q
  {
    assert StepsDown(chain, q);
    if q > 0 { DownTo(chain, q - 1); }
  }

  /** A set of sequences closed downwards is 0 up to its size. */
  lemma ClosedIsContiguous(chain: Chain)
    requires Closed(chain)
    ensures Contiguous(chain)
  {
    forall q | q in chain ensures 0 <= q < |chain| {
      assert StepsDown(chain, q);
      DownTo(chain, q);
      RangeSize(q + 1);
      forall p | p in Range(q + 1) ensures p in chain.Keys {}
      SubsetSize(Range(q + 1), chain.Keys);
    }
    RangeSize(|chain|);
    forall p | p in chain.Keys ensures p in Range(|chain|) {}
    SubsetFull(chain.Keys, Range(|chain|));
  }

  lemma {:induction false} SubsetSize<T>(a: set<T>, b: set<T>)
    requires a <= b
    ensures |a| <= |b|
  {
    if a != {} {
      var x :| x in a;
      SubsetSize(a - {x}, b - {x});
    }
  }

  /** With one event to a sequence, the chain holds every event. */
  lemma {:induction false} ChainHolds(records: seq<Record>, r: Record)
    requires NoClash(records) && r in records && r.EventRecord?
    ensures r.sequence in ChainOf(records, r.task) && ChainOf(records, r.task)[r.sequence] == r
  {
    ChainOfMember(records, r.task, r.sequence);
    var c := ChainOf(records, r.task)[r.sequence];
    var i :| 0 <= i < |records| && records[i] == r;
    var j :| 0 <= j < |records| && records[j] == c;
    assert i < j ==> Clash(records[i], records[j]);
    assert j < i ==> Clash(records[j], records[i]);
  }

  lemma ConsistentLink(records: seq<Record>, task: string, q: int, verifier: Option<Verifier>)
    requires Consistent(records, verifier) && q in ChainOf(records, task)
    ensures var chain := ChainOf(records, task);
            StepsDown(chain, q) && (q > 0 ==> LinkedAt(chain, q))
  {
    var chain := ChainOf(records, task);
    ChainOfMember(records, task, q);
    assert EventOk(records, chain[q]);
    if q > 0 {
      var r :| r in records && r.EventRecord? && r.task == task && r.sequence == q - 1 && r.hash == chain[q].previous;
      ChainHolds(records, r);
    }
  }

  lemma ConsistentHead(records: seq<Record>, task: string, head: Record, verifier: Option<Verifier>)
    requires Consistent(records, verifier) && head in HeadsOf(records, task) && Contiguous(ChainOf(records, task))
    ensures HeadMatches(ChainOf(records, task), head) && HeadAccepted(task, head, verifier)
  {
    HeadsOfMember(records, task, head);
    assert HeadOk(records, head, verifier);
    var r :| r in records && r.EventRecord? && r.task == task && r.sequence == head.sequence - 1 && r.hash == head.hash;
    ChainHolds(records, r);
  }

  lemma ConsistentTask(records: seq<Record>, task: string, verifier: Option<Verifier>)
    requires Consistent(records, verifier)
    ensures SoundIn(records, task, verifier)
  {
    var chain, heads := ChainOf(records, task), HeadsOf(records, task);
    forall q | q in chain ensures StepsDown(chain, q) { ConsistentLink(records, task, q, verifier); }
    ClosedIsContiguous(chain);
    forall q | 1 <= q < |chain| ensures LinkedAt(chain, q) { ConsistentLink(records, task, q, verifier); }
    forall i | 0 <= i < |heads| ensures HeadMatches(chain, heads[i]) && HeadAccepted(task, heads[i], verifier) {
      ConsistentHead(records, task, heads[i], verifier);
    }
  }

  lemma SoundIsConsistent(records: seq<Record>, verifier: Option<Verifier>)
    requires FileSound(records, verifier)
    ensures Consistent(records, verifier)
  {
    forall r | r in records && r.EventRecord? ensures EventOk(records, r) {
      assert Names(records, r.task) by { var i :| 0 <= i < |records| && records[i] == r; }
      assert SoundIn(records, r.task, verifier);
      ChainHolds(records, r);
      var chain := ChainOf(records, r.task);
      if r.sequence > 0 {
        assert LinkedAt(chain, r.sequence);
        ChainOfMember(records, r.task, r.sequence - 1);
      }
    }
    forall r | r in records && r.HeadRecord? ensures HeadOk(records, r, verifier) {
      assert Names(records, r.task) by { var i :| 0 <= i < |records| && records[i] == r; }
      assert SoundIn(records, r.task, verifier);
      HeadsOfMember(records, r.task, r);
      var heads := HeadsOf(records, r.task);
      var i :| 0 <= i < |heads| && heads[i] == r;
      assert HeadMatches(ChainOf(records, r.task), heads[i]);
      ChainOfMember(records, r.task, r.sequence - 1);
    }
  }

  /** The verdict is invalid exactly when the records do not bear each other out. */
  lemma InvalidExactly(records: seq<Record>, verifier: Option<Verifier>)
    ensures VerdictOf(records, verifier) == Invalid <==> !Consistent(records, verifier)
  {
    if Consistent(records, verifier) {
      forall task | Names(records, task) ensures SoundIn(records, task, verifier) {
        ConsistentTask(records, task, verifier);
      }
    } else if FileSound(records, verifier) {
      SoundIsConsistent(records, verifier);
    }
  }

  /**
    The verdict is valid exactly when the file holds records, no sequence is claimed twice, every event links to the
    one before it down to sequence 0, every head lies over an exported event and verifies, and every event lies under
    a head.
  */
  lemma ValidExactly(records: seq<Record>, verifier: Option<Verifier>)
    requires forall r :: r in records ==> !r.ControlRecord?
    ensures VerdictOf(records, verifier) == Valid <==>
              && records != [] && verifier.Some? && Consistent(records, verifier)
              && AllAnchored(records)
  {
    InvalidExactly(records, verifier);
    if Consistent(records, verifier) && records != [] {
      if VerdictOf(records, verifier) == Valid {
        ProvenIsAnchored(records, verifier);
      } else if verifier.Some? && AllAnchored(records) {
        forall task | Names(records, task) ensures ProvenIn(records, task, verifier) {
          AnchoredTask(records, task, verifier);
        }
      }
    }
  }

  lemma ProvenIsAnchored(records: seq<Record>, verifier: Option<Verifier>)
    requires FileSound(records, verifier) && FileProven(records, verifier)
    requires forall r :: r in records ==> !r.ControlRecord?
    ensures verifier.Some? && AllAnchored(records)
  {
    forall r | r in records && r.EventRecord? ensures Anchored(records, r) && verifier.Some? {
      assert Names(records, r.task) by { var i :| 0 <= i < |records| && records[i] == r; }
      assert ProvenIn(records, r.task, verifier) && SoundIn(records, r.task, verifier);
      ChainHolds(records, r);
      var chain, heads := ChainOf(records, r.task), HeadsOf(records, r.task);
      var i :| 0 <= i < |heads| && heads[i].HeadRecord? && heads[i].sequence == |chain|;
      HeadsOfMember(records, r.task, heads[i]);
    }
    var first := records[0];
    if first.HeadRecord? {
      assert Names(records, first.task);
      assert ProvenIn(records, first.task, verifier);
      HeadsOfMember(records, first.task, first);
    }
  }

  lemma AnchoredTask(records: seq<Record>, task: string, verifier: Option<Verifier>)
    requires Consistent(records, verifier) && verifier.Some?
    requires AllAnchored(records)
    ensures ProvenIn(records, task, verifier)
  {
    var chain, heads := ChainOf(records, task), HeadsOf(records, task);
    ConsistentTask(records, task, verifier);
    if |chain| > 0 {
      var last := |chain| - 1;
      assert last in chain;
      ChainOfMember(records, task, last);
      assert Anchored(records, chain[last]);
      var h :| h in records && h.HeadRecord? && h.task == task && h.sequence > last;
      HeadsOfMember(records, task, h);
      var i :| 0 <= i < |heads| && heads[i] == h;
      assert HeadMatches(chain, heads[i]);
    }
  }

  /** Reading and level-1 verification of a file. */
  method VerifyExport(lines: seq<Line>, verifier: Option<Verifier>)
    returns (verdict: Verdict, keys: seq<Key>, records: seq<Record>)
    ensures Enumerates(keys, records, lines)
    ensures verdict == if ReadsCleanly(lines) then VerdictOf(records, verifier) else Invalid
  {
    var clean;
    keys, records, clean := ReadExport(lines);
    verdict := VerifyRecords(records, verifier);
    if !clean { verdict := Invalid; }
  }
}
