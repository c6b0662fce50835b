/** The stored identity of a migrated task: its source and its own id, under a reserved prefix. */
module MigrationIds {
  import opened Checkpoints

  /** `_namespaced_migration_task_id`. */
  function Namespaced(source: string, task: string): string
  {
    "mig::" + (Decimal(|source|) + ("::" + (source + ("::" + task))))
  }

  lemma {:induction false} DecimalHasNoColon(n: nat)
    ensures ':' !in Decimal(n)
  {
    if n >= 10 { DecimalHasNoColon(n / 10); }
  }

  lemma {:induction false} DecimalInjective(a: nat, b: nat)
    requires Decimal(a) == Decimal(b)
    ensures a == b
  {
    if a >= 10 && b >= 10 {
      var x, y := Decimal(a), Decimal(b);
      assert x[..|x| - 1] == Decimal(a / 10) && y[..|y| - 1] == Decimal(b / 10);
      DecimalInjective(a / 10, b / 10);
      assert x[|x| - 1] == y[|y| - 1];
    }
  }

  /** A count with no colon in it, up to the colon after it, is found again. */
  lemma CountsAgree(a: string, b: string, x: string, y: string)
    requires ':' !in a && ':' !in b && a + ("::" + x) == b + ("::" + y)
    ensures a == b && x == y
  {
    var left, right := a + ("::" + x), b + ("::" + y);
    assert left[|a|] == ':' && right[|b|] == ':';
    assert forall i :: 0 <= i < |a| ==> left[i] == a[i];
    assert forall i :: 0 <= i < |b| ==> right[i] == b[i];
    assert |a| == |b|;
    assert left[..|a|] == a && right[..|b|] == b;
    assert left[|a| + 2..] == x && right[|b| + 2..] == y;
  }

  /** No two tasks share an id: not of one source, not of two, whatever colons either name contains. */
  lemma NamespacedInjective(source1: string, task1: string, source2: string, task2: string)
    requires Namespaced(source1, task1) == Namespaced(source2, task2)
    ensures source1 == source2 && task1 == task2
  {
    var x, y := source1 + ("::" + task1), source2 + ("::" + task2);
    var a, b := Decimal(|source1|) + ("::" + x), Decimal(|source2|) + ("::" + y);
    assert ("mig::" + a)[5..] == a && ("mig::" + b)[5..] == b;
    DecimalHasNoColon(|source1|);
    DecimalHasNoColon(|source2|);
    CountsAgree(Decimal(|source1|), Decimal(|source2|), x, y);
    DecimalInjective(|source1|, |source2|);
    assert x[..|source1|] == source1 && y[..|source2|] == source2;
    assert x[|source1| + 2..] == task1 && y[|source2| + 2..] == task2;
  }
}
