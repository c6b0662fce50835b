/**
  What leaves the host of a tool's output: the view a provider gets, and the state a migration carries. Both reduce the
  output to the fields its grant shares. Deep copying is the identity on values, so aliasing does not show here.
*/
module Projection {
  import opened Options
  import opened Json
  import opened Authority

  type Message = map<string, Json>

  /** `rest` is what neither projection touches: task id, goal, counters and status. */
  datatype State<R> = State(rest: R, memory: map<string, Json>, messages: seq<Message>)

  datatype View<R> = View(rest: R, migrated: bool, messages: seq<Message>, results: map<string, Json>)

  type Projections = map<string, seq<string>>

  /** A grant with no opinion shares nothing here. */
  function ProjectionsOf(grants: Grants): Projections
  {
    map name | name in grants :: if grants[name].projection.None? then [] else grants[name].projection.value
  }

  function Get(fields: map<string, Json>, key: string): Json { if key in fields then fields[key] else Null }

  // ----- one tool's output -----------------------------------------------------------------------------------

  function Picked(fields: map<string, Json>, p: seq<string>): map<string, Json>
  {
    map key | key in fields && key in p :: fields[key]
  }

  /** The objects of a list, each reduced; anything else in it is dropped. */
  function PickedItems(items: seq<Json>, p: seq<string>): seq<Json>
  {
    if items == [] then []
    else (if items[0].Obj? then [Obj(Picked(items[0].fields, p))] else []) + PickedItems(items[1..], p)
  }

  /** `project_tool_output`. */
  function ProjectOutput(content: Json, p: seq<string>): Json
  {
    if "*" in p then content
    else match content
      case Obj(fields) => Obj(Picked(fields, p))
      case Arr(items) => Arr(PickedItems(items, p))
      case _ => Null
  }

  // ----- the provider's view ---------------------------------------------------------------------------------

  predicate IsTool(message: Message) { Get(message, "role") == Str("tool") }

  /** The tool a message reports on, when it is a tool message of a granted tool. */
  function GrantedTool(message: Message, ps: Projections): Option<string>
  {
    var name := Get(message, "name");
    if IsTool(message) && name.Str? && name.text in ps then Some(name.text) else None
  }

  function ToolMessage(name: string): Message { map["role" := Str("tool"), "name" := Str(name)] }

  /** A tool message as a provider sees it: without content when nothing is shared. */
  function ShownMessage(message: Message, name: string, p: seq<string>): Message
  {
    if p == [] then ToolMessage(name)
    else ToolMessage(name)["content" := ProjectOutput(Get(message, "content"), p)]
  }

  function ShownMessages(messages: seq<Message>, ps: Projections): seq<Message>
  {
    if messages == [] then []
    else
      var before := ShownMessages(messages[..|messages| - 1], ps);
      var message := messages[|messages| - 1];
      match GrantedTool(message, ps)
      case None => before
      case Some(name) => before + [ShownMessage(message, name, ps[name])]
  }

  /** Anything but an object of results shows as no results. */
  function ShownResults(raw: Json, ps: Projections): map<string, Json>
  {
    if !raw.Obj? then map[]
    else map name | name in raw.fields && name in ps :: ProjectOutput(raw.fields[name], ps[name])
  }

  /** `provider_view`. */
  function ProviderView<R>(s: State<R>, ps: Projections): View<R>
  {
    View(s.rest, "migration" in s.memory, ShownMessages(s.messages, ps),
         ShownResults(Get(s.memory, "tool_results"), ps))
  }

  // ----- the state a migration carries -----------------------------------------------------------------------

  /** A tool message as it is sent: always with its reduced content. */
  function SentMessage(message: Message, name: string, p: seq<string>): Message
  {
    ToolMessage(name)["content" := ProjectOutput(Get(message, "content"), p)]
  }

  /** Conversation crosses in full; a tool message only with a grant. */
  function SentMessages(messages: seq<Message>, ps: Projections): seq<Message>
  {
    if messages == [] then []
    else
      var before := SentMessages(messages[..|messages| - 1], ps);
      var message := messages[|messages| - 1];
      if !IsTool(message) then before + [message]
      else match GrantedTool(message, ps)
        case None => before
        case Some(name) => before + [SentMessage(message, name, ps[name])]
  }

  /** `project_state_for_migration`. */
  function ForMigration<R>(s: State<R>, ps: Projections): State<R>
  {
    s.(memory := if "tool_results" in s.memory then
                   s.memory["tool_results" := Obj(ShownResults(s.memory["tool_results"], ps))]
                 else s.memory,
       messages := SentMessages(s.messages, ps))
  }

  /** `project_tool_messages`. */
  method ProjectToolMessages(messages: seq<Message>, ps: Projections) returns (projected: seq<Message>)
    ensures projected == ShownMessages(messages, ps)
  {
    projected := [];
    for i := 0 to |messages|
      invariant projected == ShownMessages(messages[..i], ps)
    {
      assert messages[..i + 1][..i] == messages[..i];
      var message := messages[i];
      if Get(message, "role") != Str("tool") { continue; }
      var name := Get(message, "name");
      if !name.Str? || name.text !in ps { continue; }
      var shown := ToolMessage(name.text);
      if ps[name.text] != [] {
        shown := shown["content" := ProjectOutput(Get(message, "content"), ps[name.text])];
      }
      projected := projected + [shown];
    }
    assert messages[..|messages|] == messages;
  }

  /** The message loop of `project_state_for_migration`. */
  method ProjectForMigration(messages: seq<Message>, ps: Projections) returns (projected: seq<Message>)
    ensures projected == SentMessages(messages, ps)
  {
    projected := [];
    for i := 0 to |messages|
      invariant projected == SentMessages(messages[..i], ps)
    {
      assert messages[..i + 1][..i] == messages[..i];
      var message := messages[i];
      if Get(message, "role") != Str("tool") {
        projected := projected + [message];
        continue;
      }
      var name := Get(message, "name");
      if name.Str? && name.text in ps {
        projected := projected
            + [ToolMessage(name.text)["content" := ProjectOutput(Get(message, "content"), ps[name.text])]];
      }
    }
    assert messages[..|messages|] == messages;
  }

  // ----- what is shown ----------------------------------------------------------------------------------------

  /** Of an object exactly the shared fields remain, with their values. */
  lemma ObjectShown(fields: map<string, Json>, p: seq<string>, key: string)
    ensures ProjectOutput(Obj(fields), p).Obj?
    ensures var shown := ProjectOutput(Obj(fields), p).fields;
            (key in shown <==> key in fields && Shares(p, key)) && (key in shown ==> shown[key] == fields[key])
  {
  }

  /** The objects of a list, in order. */
  function Objects(items: seq<Json>): seq<Json>
  {
    if items == [] then [] else (if items[0].Obj? then [items[0]] else []) + Objects(items[1..])
  }

  /** Of a list exactly its objects remain, each as an object is shown; a scalar is not shown. */
  lemma {:induction false} ListShown(items: seq<Json>, p: seq<string>, k: nat)
    requires "*" !in p && k < |Objects(items)|
    ensures var shown := ProjectOutput(Arr(items), p);
            shown.Arr? && |shown.items| == |Objects(items)| && shown.items[k] == ProjectOutput(Objects(items)[k], p)
    decreases |items|
  {
    PickedCount(items, p);
    if items[0].Obj? {
      if k > 0 {
        ListShown(items[1..], p, k - 1);
        PickedCount(items[1..], p);
      }
    } else {
      assert Objects(items) == Objects(items[1..]) && PickedItems(items, p) == PickedItems(items[1..], p);
      ListShown(items[1..], p, k);
    }
  }

  lemma {:induction false} PickedCount(items: seq<Json>, p: seq<string>)
    ensures |PickedItems(items, p)| == |Objects(items)|
    decreases |items|
  {
    if items != [] { PickedCount(items[1..], p); }
  }

  /** Every message shown is that of a granted tool, with content exactly when the grant shares something. */
  lemma {:induction false} OnlyGrantedShown(messages: seq<Message>, ps: Projections, k: nat)
    requires k < |ShownMessages(messages, ps)|
    ensures exists i, name :: 0 <= i < |messages| && GrantedTool(messages[i], ps) == Some(name)
                              && ShownMessages(messages, ps)[k] == ShownMessage(messages[i], name, ps[name])
    decreases |messages|
  {
    var n := |messages| - 1;
    var before := ShownMessages(messages[..n], ps);
    if k < |before| {
      OnlyGrantedShown(messages[..n], ps, k);
      var i, name :| 0 <= i < n && GrantedTool(messages[..n][i], ps) == Some(name)
                     && before[k] == ShownMessage(messages[..n][i], name, ps[name]);
      assert messages[i] == messages[..n][i];
    } else {
      var name := GrantedTool(messages[n], ps).value;
      assert GrantedTool(messages[n], ps) == Some(name);
    }
  }

  // ----- projecting twice ------------------------------------------------------------------------------------

  /** Sharing no more: every field of `q` is one of `p`, unless `p` shares all. */
  predicate Within(q: seq<string>, p: seq<string>)
  {
    "*" in p || ("*" !in q && Subset(q, p))
  }

  predicate Subset(q: seq<string>, p: seq<string>) { forall key :: key in q ==> key in p }

  predicate AllWithin(qs: Projections, ps: Projections)
  {
    forall name :: name in qs ==> name in ps && Within(qs[name], ps[name])
  }

  lemma PickedTwice(fields: map<string, Json>, p: seq<string>, q: seq<string>)
    requires Subset(q, p)
    ensures Picked(Picked(fields, p), q) == Picked(fields, q)
  {
  }

  lemma PickedItemsCons(fields: map<string, Json>, rest: seq<Json>, q: seq<string>)
    ensures PickedItems([Obj(fields)] + rest, q) == [Obj(Picked(fields, q))] + PickedItems(rest, q)
  {
    assert ([Obj(fields)] + rest)[1..] == rest;
  }

  lemma {:induction false} PickedItemsTwice(items: seq<Json>, p: seq<string>, q: seq<string>)
    requires Subset(q, p)
    ensures PickedItems(PickedItems(items, p), q) == PickedItems(items, q)
    decreases |items|
  {
    if items != [] {
      PickedItemsTwice(items[1..], p, q);
      var rest := PickedItems(items[1..], p);
      if items[0].Obj? {
        var fields := items[0].fields;
        PickedTwice(fields, p, q);
        PickedItemsCons(Picked(fields, p), rest, q);
        assert PickedItems(items, p) == [Obj(Picked(fields, p))] + rest;
        assert PickedItems(items, q) == [Obj(Picked(fields, q))] + PickedItems(items[1..], q);
      } else {
        assert PickedItems(items, p) == rest && PickedItems(items, q) == PickedItems(items[1..], q);
      }
    }
  }

  /** Projecting by `p` and then by a `q` within it is projecting by `q`: objects, lists, scalars, all and nothing. */
  lemma ProjectTwice(content: Json, p: seq<string>, q: seq<string>)
    requires Within(q, p)
    ensures ProjectOutput(ProjectOutput(content, p), q) == ProjectOutput(content, q)
  {
    if "*" !in p {
      if content.Obj? { PickedTwice(content.fields, p, q); }
      if content.Arr? { PickedItemsTwice(content.items, p, q); }
    }
  }

  // ----- migration is transparent ----------------------------------------------------------------------------

  lemma SentShows(message: Message, name: string, ps: Projections, qs: Projections)
    requires AllWithin(qs, ps) && GrantedTool(message, ps) == Some(name)
    ensures var sent := SentMessage(message, name, ps[name]);
            && GrantedTool(sent, qs) == (if name in qs then Some(name) else None)
            && (name in qs ==> ShownMessage(sent, name, qs[name]) == ShownMessage(message, name, qs[name]))
  {
    var sent := SentMessage(message, name, ps[name]);
    assert Get(sent, "role") == Str("tool") && Get(sent, "name") == Str(name);
    if name in qs { ProjectTwice(Get(message, "content"), ps[name], qs[name]); }
  }

  lemma ShownSnoc(messages: seq<Message>, message: Message, qs: Projections)
    ensures ShownMessages(messages + [message], qs) ==
              match GrantedTool(message, qs)
              case None => ShownMessages(messages, qs)
              case Some(name) => ShownMessages(messages, qs) + [ShownMessage(message, name, qs[name])]
  {
    assert (messages + [message])[..|messages|] == messages;
  }

  lemma {:induction false} MessagesTransparent(messages: seq<Message>, ps: Projections, qs: Projections)
    requires AllWithin(qs, ps)
    ensures ShownMessages(SentMessages(messages, ps), qs) == ShownMessages(messages, qs)
    decreases |messages|
  {
    if messages != [] {
      var n := |messages| - 1;
      var before, message := SentMessages(messages[..n], ps), messages[n];
      MessagesTransparent(messages[..n], ps, qs);
      if !IsTool(message) {
        ShownSnoc(before, message, qs);
      } else if GrantedTool(message, ps).Some? {
        var name := GrantedTool(message, ps).value;
        SentShows(message, name, ps, qs);
        ShownSnoc(before, SentMessage(message, name, ps[name]), qs);
      }
    }
  }

  lemma ResultsTransparent(raw: Json, ps: Projections, qs: Projections)
    requires AllWithin(qs, ps)
    ensures ShownResults(Obj(ShownResults(raw, ps)), qs) == ShownResults(raw, qs)
  {
    if raw.Obj? {
      forall name | name in raw.fields && name in qs
        ensures ProjectOutput(ProjectOutput(raw.fields[name], ps[name]), qs[name]) ==
            ProjectOutput(raw.fields[name], qs[name])
      {
        ProjectTwice(raw.fields[name], ps[name], qs[name]);
      }
    }
  }

  /**
    A provider at the destination, under grants at or below those of the migration, sees exactly what it would have
    seen of the state at the source.
  */
  lemma MigrationTransparent<R>(s: State<R>, ps: Projections, qs: Projections)
    requires AllWithin(qs, ps)
    ensures ProviderView(ForMigration(s, ps), qs) == ProviderView(s, qs)
  {
    MessagesTransparent(s.messages, ps, qs);
    if "tool_results" in s.memory {
      ResultsTransparent(s.memory["tool_results"], ps, qs);
    }
    assert "migration" in ForMigration(s, ps).memory <==> "migration" in s.memory;
  }

  /** Every grant says what it shares. */
  predicate Opinionated(grants: Grants) { forall name :: name in grants ==> grants[name].projection.Some? }

  /** What a policy leaves of a permit always says. */
  lemma CutIsOpinionated(policy: Policy, envelope: Envelope)
    ensures Opinionated(Cut(policy, envelope).grants)
  {
  }

  lemma NarrowedIsWithin(a: Grants, b: Grants)
    requires Opinionated(a)
    ensures Opinionated(IntersectGrants(a, b)) && AllWithin(ProjectionsOf(IntersectGrants(a, b)), ProjectionsOf(a))
  {
    var both := IntersectGrants(a, b);
    forall name | name in both ensures Within(both[name].projection.value, a[name].projection.value) {
      if b[name].projection.Some? { IntersectionWithin(a[name].projection.value, b[name].projection.value); }
    }
  }

  lemma IntersectionWithin(left: seq<string>, right: seq<string>)
    ensures Within(IntersectProjections(Some(left), Some(right)).value, left)
  {
    forall key ensures key in Kept(left, right) <==> key in left && key in right { KeptExact(left, right, key); }
  }

  /**
    In particular: migrate under any effective grants, narrow them at the destination by its own policy or a ceiling,
    and the provider's view is unchanged by the journey.
  */
  lemma TransparentAfterNarrowing<R>(s: State<R>, grants: Grants, destination: Grants)
    requires Opinionated(grants)
    ensures var narrowed := ProjectionsOf(IntersectGrants(grants, destination));
            ProviderView(ForMigration(s, ProjectionsOf(grants)), narrowed) == ProviderView(s, narrowed)
  {
    NarrowedIsWithin(grants, destination);
    MigrationTransparent(s, ProjectionsOf(grants), ProjectionsOf(IntersectGrants(grants, destination)));
  }

  /** What was sent is already reduced: a second hop under the same grants sends the same. */
  lemma SecondHopSame<R>(s: State<R>, ps: Projections)
    ensures ForMigration(ForMigration(s, ps), ps) == ForMigration(s, ps)
  {
    SentTwice(s.messages, ps);
    if "tool_results" in s.memory {
      forall name | name in ps ensures Within(ps[name], ps[name]) {}
      ResultsTransparent(s.memory["tool_results"], ps, ps);
    }
  }

  lemma SentSnoc(messages: seq<Message>, message: Message, ps: Projections)
    ensures SentMessages(messages + [message], ps) ==
              if !IsTool(message) then SentMessages(messages, ps) + [message]
              else match GrantedTool(message, ps)
                case None => SentMessages(messages, ps)
                case Some(name) => SentMessages(messages, ps) + [SentMessage(message, name, ps[name])]
  {
    assert (messages + [message])[..|messages|] == messages;
  }

  lemma {:induction false} SentTwice(messages: seq<Message>, ps: Projections)
    ensures SentMessages(SentMessages(messages, ps), ps) == SentMessages(messages, ps)
    decreases |messages|
  {
    if messages != [] {
      var n := |messages| - 1;
      var before, message := SentMessages(messages[..n], ps), messages[n];
      SentTwice(messages[..n], ps);
      if !IsTool(message) {
        SentSnoc(before, message, ps);
      } else if GrantedTool(message, ps).Some? {
        var name := GrantedTool(message, ps).value;
        var sent := SentMessage(message, name, ps[name]);
        SentSnoc(before, sent, ps);
        SentShows(message, name, ps, ps);
        ProjectTwice(Get(message, "content"), ps[name], ps[name]);
      }
    }
  }
}
