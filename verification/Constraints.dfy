/**
  Argument constraints of a tool grant, and how two of them combine. A constraint set is held decoded: every value is
  of the kind its key asks for, as the checker demands before it admits anything.
*/
module Constraints {
  import opened Options
  import opened Json

  datatype Url = Url(scheme: string, host: string)

  /** The library tests the checker relies on: URL parsing, full regular-expression match, and case folding. */
  datatype Library = Library(
    parse: string -> Option<Url>, matches: (string, string) -> bool,
    lower: string -> string, normalHost: string -> string)

  /** What one key of an argument spec, or one flat key, asks of the argument's value. */
  datatype Rule =
    | Types(names: seq<string>)
    | Constant(value: Json)
    | Choices(values: seq<Json>)
    | Minimum(least: real)
    | Maximum(most: real)
    | MinLength(shortest: nat)
    | MaxLength(longest: nat)
    | Pattern(regex: string)
    | Scheme(scheme: string)
    | Schemes(schemes: seq<string>)
    | Hosts(hosts: seq<string>)
    | Domains(domains: seq<string>)

  /** One entry of the `arguments` schema: its rules by key, and whether the argument must be present. */
  datatype Spec = Spec(required: bool, rules: map<string, Rule>)

  /** `max_<argument>`, `allowed_<argument>` and `<argument>`: the three shapes of a flat key. */
  datatype FlatKey = MaxKey(argument: string) | AllowedKey(argument: string) | ExactKey(argument: string)

  datatype ConstraintSet = ConstraintSet(
    flat: map<FlatKey, Rule>, schema: map<string, Spec>, required: set<string>, additional: Option<bool>)

  // ----- the check at invocation -----------------------------------------------------------------------------

  predicate HasType(value: Json, name: string)
  {
    match name
    case "string" => value.Str?
    case "integer" => value.Int?
    case "number" => value.Number()
    case "boolean" => value.Bool?
    case "object" => value.Obj?
    case "array" => value.Arr?
    case "null" => value.Null?
    case _ => false
  }

  predicate InDomain(host: string, domain: string)
  {
    host == domain || (|domain| < |host| && host[|host| - |domain| - 1..] == "." + domain)
  }

  /** Some entry of a list rule accepts the value. */
  predicate EntryOk(rule: Rule, entry: string, value: Json, lib: Library)
  {
    match rule
    case Types(_) => HasType(value, entry)
    case Schemes(_) => lib.lower(UrlOf(value, lib).scheme) == lib.lower(entry)
    case Hosts(_) => lib.normalHost(UrlOf(value, lib).host) == lib.normalHost(entry)
    case Domains(_) => InDomain(lib.normalHost(UrlOf(value, lib).host), lib.normalHost(entry))
    case _ => false
  }

  predicate IsUrl(value: Json, lib: Library) { value.Str? && lib.parse(value.text).Some? }

  function UrlOf(value: Json, lib: Library): Url
  {
    if IsUrl(value, lib) then lib.parse(value.text).value else Url("", "")
  }

  function Entries(rule: Rule): seq<string>
  {
    match rule
    case Types(names) => names
    case Schemes(schemes) => schemes
    case Hosts(hosts) => hosts
    case Domains(domains) => domains
    case _ => []
  }

  predicate RuleOk(rule: Rule, value: Json, lib: Library)
  {
    match rule
    case Constant(expected) => JsonEqual(value, expected)
    case Choices(values) => JsonIn(value, values)
    case Minimum(least) => value.Number() && value.Value() >= least
    case Maximum(most) => value.Number() && value.Value() <= most
    case MinLength(shortest) => value.Str? && |value.text| >= shortest
    case MaxLength(longest) => value.Str? && |value.text| <= longest
    case Pattern(regex) => value.Str? && lib.matches(regex, value.text)
    case Scheme(scheme) => IsUrl(value, lib) && lib.lower(UrlOf(value, lib).scheme) == lib.lower(scheme)
    case _ =>
      && (!rule.Types? ==> IsUrl(value, lib))
      && exists i :: 0 <= i < |Entries(rule)| && EntryOk(rule, Entries(rule)[i], value, lib)
  }

  predicate RulesOk<K>(rules: map<K, Rule>, value: Json, lib: Library)
  {
    forall k :: k in rules ==> RuleOk(rules[k], value, lib)
  }

  /** The names a set mentions, and so whitelists unless `additional_arguments` says otherwise. */
  function Names(c: ConstraintSet): set<string>
  {
    FlatNames(c.flat) + c.schema.Keys + c.required
  }

  function FlatNames(flat: map<FlatKey, Rule>): set<string> { set k | k in flat :: k.argument }

  /** `_admits_any_argument`: with no flag, only a set that mentions nothing is open. */
  predicate Open(c: ConstraintSet)
  {
    if c.additional.None? then Names(c) == {} else c.additional.value
  }

  predicate FlatOk(flat: map<FlatKey, Rule>, args: map<string, Json>, lib: Library)
  {
    forall k :: k in flat ==> k.argument in args && RuleOk(flat[k], args[k.argument], lib)
  }

  predicate SpecOk(spec: Spec, name: string, args: map<string, Json>, lib: Library)
  {
    && (spec.required ==> name in args)
    && (name in args ==> RulesOk(spec.rules, args[name], lib))
  }

  predicate SchemaOk(schema: map<string, Spec>, args: map<string, Json>, lib: Library)
  {
    forall n :: n in schema ==> SpecOk(schema[n], n, args, lib)
  }

  predicate NamesOk(c: ConstraintSet, args: map<string, Json>)
  {
    c.required <= args.Keys && (Open(c) || args.Keys <= Names(c))
  }

  /** `check_constraints` accepts the call. */
  predicate Admits(c: ConstraintSet, args: map<string, Json>, lib: Library)
  {
    NamesOk(c, args) && SchemaOk(c.schema, args, lib) && FlatOk(c.flat, args, lib)
  }

  // ----- combining two sets ----------------------------------------------------------------------------------

  function SharedStrings(a: seq<string>, b: seq<string>): seq<string>
  {
    if a == [] then [] else (if a[0] in b then [a[0]] else []) + SharedStrings(a[1..], b)
  }

  function SharedJson(a: seq<Json>, b: seq<Json>): seq<Json>
  {
    if a == [] then [] else (if JsonIn(a[0], b) then [a[0]] else []) + SharedJson(a[1..], b)
  }

  function WithEntries(rule: Rule, entries: seq<string>): Rule
  {
    match rule
    case Types(_) => Types(entries)
    case Schemes(_) => Schemes(entries)
    case Hosts(_) => Hosts(entries)
    case Domains(_) => Domains(entries)
    case _ => rule
  }

  predicate SameKind(a: Rule, b: Rule)
  {
    (a.Types? && b.Types?) || (a.Schemes? && b.Schemes?) || (a.Hosts? && b.Hosts?) || (a.Domains? && b.Domains?)
  }

  /** The narrowing table: two rules under one key, or None when no rule is known to be below both. */
  function NarrowRule(a: Rule, b: Rule): Option<Rule>
  {
    if a == b then Some(a)
    else if a.Constant? && b.Constant? then
      if JsonEqual(a.value, b.value) then Some(a) else None
    else if a.Choices? && b.Choices? then
      if JsonEqual(Arr(a.values), Arr(b.values)) then Some(a)
      else if SharedJson(a.values, b.values) == [] then None
      else Some(Choices(SharedJson(a.values, b.values)))
    else if a.Minimum? && b.Minimum? then Some(if a.least >= b.least then a else b)
    else if a.Maximum? && b.Maximum? then Some(if a.most <= b.most then a else b)
    else if a.MinLength? && b.MinLength? then Some(if a.shortest >= b.shortest then a else b)
    else if a.MaxLength? && b.MaxLength? then Some(if a.longest <= b.longest then a else b)
    else if SameKind(a, b) then
      if SharedStrings(Entries(a), Entries(b)) == [] then None
      else Some(WithEntries(a, SharedStrings(Entries(a), Entries(b))))
    else None
  }

  /** A key present on one side is copied; present on both its rules are narrowed. */
  function MergeRules<K>(a: map<K, Rule>, b: map<K, Rule>): Option<map<K, Rule>>
  {
    if exists k :: k in a && k in b && NarrowRule(a[k], b[k]).None? then None
    else Some(map k | k in a.Keys + b.Keys ::
                if k !in a then b[k] else if k !in b then a[k] else NarrowRule(a[k], b[k]).value)
  }

  /** `_narrow_argument_spec`. */
  function NarrowSpec(a: Spec, b: Spec): Option<Spec>
  {
    match MergeRules(a.rules, b.rules)
    case None => None
    case Some(rules) => Some(Spec(a.required || b.required, rules))
  }

  function MergeSchemas(a: map<string, Spec>, b: map<string, Spec>): Option<map<string, Spec>>
  {
    if exists n :: n in a && n in b && NarrowSpec(a[n], b[n]).None? then None
    else Some(map n | n in a.Keys + b.Keys ::
                if n !in a then b[n] else if n !in b then a[n] else NarrowSpec(a[n], b[n]).value)
  }

  /** `_intersect_permitted_names`; None admits any name. */
  function PermittedNames(a: ConstraintSet, b: ConstraintSet): Option<set<string>>
  {
    if Open(a) && Open(b) then None
    else if Open(a) then Some(Names(b))
    else if Open(b) then Some(Names(a))
    else Some(Names(a) * Names(b))
  }

  predicate Permits(permitted: Option<set<string>>, name: string)
  {
    permitted.None? || name in permitted.value
  }

  /** Names outside the whitelist lose their entry. */
  function Within(schema: map<string, Spec>, permitted: Option<set<string>>): map<string, Spec>
  {
    map n | n in schema && Permits(permitted, n) :: schema[n]
  }

  /** A requirement on a name the combined whitelist refuses makes the set unsatisfiable. */
  predicate DemandsRefused(c: ConstraintSet, permitted: Option<set<string>>)
  {
    || (exists k :: k in c.flat && !Permits(permitted, k.argument))
    || (exists n :: n in c.required && !Permits(permitted, n))
    || (exists n :: n in c.schema && !Permits(permitted, n) && c.schema[n].required)
  }

  predicate Combinable(a: ConstraintSet, b: ConstraintSet)
  {
    var permitted := PermittedNames(a, b);
    && !DemandsRefused(a, permitted) && !DemandsRefused(b, permitted)
    && MergeRules(a.flat, b.flat).Some?
    && MergeSchemas(Within(a.schema, permitted), Within(b.schema, permitted)).Some?
  }

  function Combined(a: ConstraintSet, b: ConstraintSet): ConstraintSet
    requires Combinable(a, b)
  {
    var permitted := PermittedNames(a, b);
    ConstraintSet(MergeRules(a.flat, b.flat).value,
                  MergeSchemas(Within(a.schema, permitted), Within(b.schema, permitted)).value,
                  a.required + b.required, None)
  }

  /** The flag is recorded only when it overrides what the set would default to on its own. */
  function WithFlag(c: ConstraintSet, additional: bool): ConstraintSet
    requires c.additional.None?
  {
    if additional != Open(c) then c.(additional := Some(additional)) else c
  }

  /** `_constraint_intersection`; None drops the grant. */
  function Intersect(a: ConstraintSet, b: ConstraintSet): Option<ConstraintSet>
  {
    if Combinable(a, b) then Some(WithFlag(Combined(a, b), Open(a) && Open(b))) else None
  }

  // ----- what the combined set admits ------------------------------------------------------------------------

  lemma {:induction false} SharedStringsExact(a: seq<string>, b: seq<string>, s: string)
    ensures s in SharedStrings(a, b) <==> s in a && s in b
  {
    if a != [] {
      SharedStringsExact(a[1..], b, s);
      assert a == [a[0]] + a[1..];
    }
  }

  lemma {:induction false} SharedJsonExact(a: seq<Json>, b: seq<Json>, value: Json)
    ensures JsonIn(value, SharedJson(a, b)) <==> JsonIn(value, a) && JsonIn(value, b)
  {
    if a != [] {
      SharedJsonExact(a[1..], b, value);
      JsonInCons(value, a);
      if JsonIn(a[0], b) {
        var rest := SharedJson(a[1..], b);
        JsonInCons(value, [a[0]] + rest);
        assert ([a[0]] + rest)[1..] == rest;
        if JsonEqual(value, a[0]) { JsonInEqual(value, a[0], b); }
      } else {
        assert [] + SharedJson(a[1..], b) == SharedJson(a[1..], b);
        if JsonEqual(value, a[0]) && JsonIn(value, b) {
          JsonEqualSymmetric(value, a[0]);
          JsonInEqual(a[0], value, b);
        }
      }
    }
  }

  lemma JsonInCons(value: Json, items: seq<Json>)
    requires items != []
    ensures JsonIn(value, items) <==> JsonEqual(value, items[0]) || JsonIn(value, items[1..])
  {
    if JsonIn(value, items) && !JsonEqual(value, items[0]) {
      var i :| 0 <= i < |items| && JsonEqual(value, items[i]);
      assert items[1..][i - 1] == items[i];
    }
    if JsonIn(value, items[1..]) {
      var i :| 0 <= i < |items[1..]| && JsonEqual(value, items[1..][i]);
      assert items[i + 1] == items[1..][i];
    }
  }

  lemma JsonInEqual(value: Json, other: Json, items: seq<Json>)
    requires JsonEqual(value, other) && JsonIn(other, items)
    ensures JsonIn(value, items)
  {
    var i :| 0 <= i < |items| && JsonEqual(other, items[i]);
    JsonEqualTransitive(value, other, items[i]);
  }


  lemma EqualListsSameChoices(a: seq<Json>, b: seq<Json>, value: Json)
    requires JsonEqual(Arr(a), Arr(b)) && JsonIn(value, a)
    ensures JsonIn(value, b)
  {
    var i :| 0 <= i < |a| && JsonEqual(value, a[i]);
    assert JsonEqual(Arr(a).items[i], Arr(b).items[i]);
    JsonEqualTransitive(value, a[i], b[i]);
  }

  /**
    Types, schemes, hosts and domains are intersected as written, so an entry of one list that is covered by a wider
    entry of the other is lost. Every other pair of rules combines exactly.
  */
  predicate Lossy(a: Rule, b: Rule) { SameKind(a, b) && a != b }

  lemma ListNarrows(a: Rule, b: Rule, value: Json, lib: Library)
    requires SameKind(a, b) && a != b && NarrowRule(a, b).Some? && RuleOk(NarrowRule(a, b).value, value, lib)
    ensures RuleOk(a, value, lib) && RuleOk(b, value, lib)
  {
    var shared := SharedStrings(Entries(a), Entries(b));
    var m := NarrowRule(a, b).value;
    assert Entries(m) == shared;
    var i :| 0 <= i < |shared| && EntryOk(m, shared[i], value, lib);
    SharedStringsExact(Entries(a), Entries(b), shared[i]);
    var x :| 0 <= x < |Entries(a)| && Entries(a)[x] == shared[i];
    var y :| 0 <= y < |Entries(b)| && Entries(b)[y] == shared[i];
    assert EntryOk(a, Entries(a)[x], value, lib) && EntryOk(b, Entries(b)[y], value, lib);
  }

  lemma JsonRuleNarrows(a: Rule, b: Rule, value: Json, lib: Library)
    requires (a.Constant? && b.Constant?) || (a.Choices? && b.Choices?)
    requires NarrowRule(a, b).Some?
    ensures RuleOk(NarrowRule(a, b).value, value, lib) <==> RuleOk(a, value, lib) && RuleOk(b, value, lib)
  {
    if a.Constant? {
      if JsonEqual(value, a.value) && a != b { JsonEqualTransitive(value, a.value, b.value); }
    } else {
      SharedJsonExact(a.values, b.values, value);
      if a != b && JsonEqual(Arr(a.values), Arr(b.values)) && JsonIn(value, a.values) {
        EqualListsSameChoices(a.values, b.values, value);
      }
    }
  }

  lemma RuleNarrows(a: Rule, b: Rule, value: Json, lib: Library)
    requires NarrowRule(a, b).Some?
    ensures RuleOk(NarrowRule(a, b).value, value, lib) ==> RuleOk(a, value, lib) && RuleOk(b, value, lib)
    ensures !Lossy(a, b) && RuleOk(a, value, lib) && RuleOk(b, value, lib) ==>
        RuleOk(NarrowRule(a, b).value, value, lib)
  {
    if a == b {
    } else if (a.Constant? && b.Constant?) || (a.Choices? && b.Choices?) {
      JsonRuleNarrows(a, b, value, lib);
    } else if SameKind(a, b) {
      if RuleOk(NarrowRule(a, b).value, value, lib) { ListNarrows(a, b, value, lib); }
    }
  }

  predicate LosslessRules<K>(a: map<K, Rule>, b: map<K, Rule>)
  {
    forall k :: k in a && k in b ==> !Lossy(a[k], b[k])
  }

  /** The merged rule under one key. */
  lemma MergedRule<K>(a: map<K, Rule>, b: map<K, Rule>, k: K, value: Json, lib: Library)
    requires MergeRules(a, b).Some? && (k in a || k in b)
    ensures var m := MergeRules(a, b).value;
            && k in m
            && (RuleOk(m[k], value, lib) ==>
                (k in a ==> RuleOk(a[k], value, lib)) && (k in b ==> RuleOk(b[k], value, lib)))
            && ((k in a ==> RuleOk(a[k], value, lib)) && (k in b ==> RuleOk(b[k], value, lib))
                && LosslessRules(a, b) ==>
                  RuleOk(m[k], value, lib))
  {
    if k in a && k in b { RuleNarrows(a[k], b[k], value, lib); }
  }

  lemma RulesNarrow<K>(a: map<K, Rule>, b: map<K, Rule>, value: Json, lib: Library)
    requires MergeRules(a, b).Some?
    ensures RulesOk(MergeRules(a, b).value, value, lib) ==> RulesOk(a, value, lib) && RulesOk(b, value, lib)
    ensures LosslessRules(a, b) && RulesOk(a, value, lib) && RulesOk(b, value, lib) ==>
              RulesOk(MergeRules(a, b).value, value, lib)
  {
    var m := MergeRules(a, b).value;
    if RulesOk(m, value, lib) {
      forall k | k in a ensures RuleOk(a[k], value, lib) { MergedRule(a, b, k, value, lib); }
      forall k | k in b ensures RuleOk(b[k], value, lib) { MergedRule(a, b, k, value, lib); }
    }
    if LosslessRules(a, b) && RulesOk(a, value, lib) && RulesOk(b, value, lib) {
      forall k | k in m ensures RuleOk(m[k], value, lib) { MergedRule(a, b, k, value, lib); }
    }
  }

  lemma FlatNarrows(a: map<FlatKey, Rule>, b: map<FlatKey, Rule>, args: map<string, Json>, lib: Library)
    requires MergeRules(a, b).Some?
    ensures FlatOk(MergeRules(a, b).value, args, lib) ==> FlatOk(a, args, lib) && FlatOk(b, args, lib)
    ensures LosslessRules(a, b) && FlatOk(a, args, lib) && FlatOk(b, args, lib) ==>
              FlatOk(MergeRules(a, b).value, args, lib)
  {
    var m := MergeRules(a, b).value;
    forall k | (k in a || k in b) && k.argument in args
      ensures var v := args[k.argument];
              && k in m
              && (RuleOk(m[k], v, lib) ==> (k in a ==> RuleOk(a[k], v, lib)) && (k in b ==> RuleOk(b[k], v, lib)))
              && ((k in a ==> RuleOk(a[k], v, lib)) && (k in b ==> RuleOk(b[k], v, lib)) && LosslessRules(a, b) ==>
                    RuleOk(m[k], v, lib))
    {
      MergedRule(a, b, k, args[k.argument], lib);
    }
    assert forall k :: k in a ==> k in m;
    assert forall k :: k in b ==> k in m;
  }

  lemma SpecNarrows(a: Spec, b: Spec, name: string, args: map<string, Json>, lib: Library)
    requires NarrowSpec(a, b).Some?
    ensures SpecOk(NarrowSpec(a, b).value, name, args, lib) ==> SpecOk(a, name, args, lib) && SpecOk(b, name, args, lib)
    ensures LosslessRules(a.rules, b.rules) && SpecOk(a, name, args, lib) && SpecOk(b, name, args, lib) ==>
              SpecOk(NarrowSpec(a, b).value, name, args, lib)
  {
    if name in args { RulesNarrow(a.rules, b.rules, args[name], lib); }
  }

  predicate LosslessSchemas(a: map<string, Spec>, b: map<string, Spec>)
  {
    forall n :: n in a && n in b ==> LosslessRules(a[n].rules, b[n].rules)
  }

  lemma SchemasNarrow(a: map<string, Spec>, b: map<string, Spec>, args: map<string, Json>, lib: Library)
    requires MergeSchemas(a, b).Some?
    ensures SchemaOk(MergeSchemas(a, b).value, args, lib) ==> SchemaOk(a, args, lib) && SchemaOk(b, args, lib)
    ensures LosslessSchemas(a, b) && SchemaOk(a, args, lib) && SchemaOk(b, args, lib) ==>
              SchemaOk(MergeSchemas(a, b).value, args, lib)
  {
    var m := MergeSchemas(a, b).value;
    forall n | n in a && n in b
      ensures NarrowSpec(a[n], b[n]).Some?
      ensures SpecOk(m[n], n, args, lib) ==> SpecOk(a[n], n, args, lib) && SpecOk(b[n], n, args, lib)
      ensures LosslessRules(a[n].rules, b[n].rules) && SpecOk(a[n], n, args, lib) && SpecOk(b[n], n, args, lib) ==>
                SpecOk(m[n], n, args, lib)
    {
      SpecNarrows(a[n], b[n], n, args, lib);
    }
    assert forall n :: n in a ==> n in m;
    assert forall n :: n in b ==> n in m;
  }

  /** An entry dropped for its name asks nothing of a call that does not pass the name. */
  lemma WithinNarrows(c: ConstraintSet, permitted: Option<set<string>>, args: map<string, Json>, lib: Library)
    requires !DemandsRefused(c, permitted)
    requires permitted.Some? ==> args.Keys <= permitted.value
    ensures SchemaOk(Within(c.schema, permitted), args, lib) <==> SchemaOk(c.schema, args, lib)
  {
    var kept := Within(c.schema, permitted);
    forall n | n in c.schema && n !in kept ensures SpecOk(c.schema[n], n, args, lib) {}
    forall n | n in kept ensures n in c.schema && kept[n] == c.schema[n] {}
  }

  lemma MergedNames(a: ConstraintSet, b: ConstraintSet)
    requires Combinable(a, b)
    ensures var permitted := PermittedNames(a, b);
            Names(Combined(a, b)) ==
              (FlatNames(a.flat) + a.required + Within(a.schema, permitted).Keys)
              + (FlatNames(b.flat) + b.required + Within(b.schema, permitted).Keys)
  {
    FlatNamesMerge(a.flat, b.flat);
  }

  lemma FlatNamesMerge(a: map<FlatKey, Rule>, b: map<FlatKey, Rule>)
    requires MergeRules(a, b).Some?
    ensures FlatNames(MergeRules(a, b).value) == FlatNames(a) + FlatNames(b)
  {
    assert MergeRules(a, b).value.Keys == a.Keys + b.Keys;
  }

  /** What a set mentions within the whitelist survives, and nothing outside it does. */
  lemma KeptNames(c: ConstraintSet, permitted: Option<set<string>>)
    requires permitted.Some? && !DemandsRefused(c, permitted)
    ensures FlatNames(c.flat) + c.required + Within(c.schema, permitted).Keys == Names(c) * permitted.value
  {
    var kept := Within(c.schema, permitted).Keys;
    forall n | n in FlatNames(c.flat) ensures n in permitted.value {}
    assert kept == c.schema.Keys * permitted.value;
    assert Names(c) == FlatNames(c.flat) + c.schema.Keys + c.required;
  }

  /** The combined whitelist is the intersection of the two, whichever keys the merge copied across. */
  lemma NamesCombine(a: ConstraintSet, b: ConstraintSet)
    requires Combinable(a, b) && PermittedNames(a, b).Some?
    ensures Names(Combined(a, b)) == PermittedNames(a, b).value
  {
    var permitted := PermittedNames(a, b);
    MergedNames(a, b);
    KeptNames(a, permitted);
    KeptNames(b, permitted);
    Distributes(Names(a), Names(b), permitted.value);
  }

  lemma Distributes(a: set<string>, b: set<string>, within: set<string>)
    requires within <= a + b
    ensures a * within + b * within == within
  {
  }

  lemma FlagDecides(c: ConstraintSet, additional: bool, args: map<string, Json>)
    requires c.additional.None?
    ensures NamesOk(WithFlag(c, additional), args) <==>
              c.required <= args.Keys && (additional || args.Keys <= Names(c))
  {
    assert Names(WithFlag(c, additional)) == Names(c);
  }

  /** No rule of one set is lost in the other. */
  predicate Lossless(a: ConstraintSet, b: ConstraintSet)
  {
    LosslessRules(a.flat, b.flat) && LosslessSchemas(a.schema, b.schema)
  }

  /** The combined set admits no call that either set refuses. */
  lemma IntersectNarrows(a: ConstraintSet, b: ConstraintSet, args: map<string, Json>, lib: Library)
    requires Intersect(a, b).Some? && Admits(Intersect(a, b).value, args, lib)
    ensures Admits(a, args, lib) && Admits(b, args, lib)
  {
    var permitted := PermittedNames(a, b);
    if permitted.Some? { NamesCombine(a, b); }
    FlagDecides(Combined(a, b), Open(a) && Open(b), args);
    FlatNarrows(a.flat, b.flat, args, lib);
    SchemasNarrow(Within(a.schema, permitted), Within(b.schema, permitted), args, lib);
    WithinNarrows(a, permitted, args, lib);
    WithinNarrows(b, permitted, args, lib);
  }

  /** And where no list entry is lost it admits every call that both admit. */
  lemma IntersectExact(a: ConstraintSet, b: ConstraintSet, args: map<string, Json>, lib: Library)
    requires Intersect(a, b).Some? && Lossless(a, b) && Admits(a, args, lib) && Admits(b, args, lib)
    ensures Admits(Intersect(a, b).value, args, lib)
  {
    var permitted := PermittedNames(a, b);
    if permitted.Some? { NamesCombine(a, b); }
    FlagDecides(Combined(a, b), Open(a) && Open(b), args);
    FlatNarrows(a.flat, b.flat, args, lib);
    SchemasNarrow(Within(a.schema, permitted), Within(b.schema, permitted), args, lib);
    WithinNarrows(a, permitted, args, lib);
    WithinNarrows(b, permitted, args, lib);
  }
}
