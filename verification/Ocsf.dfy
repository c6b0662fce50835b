/**
  Export records reshaped as OCSF API Activity records (class 6003, OCSF 1.9.0), and read back. A string is either one
  of the literals the reshape mentions, held as a constructor, or any other text.
*/
module Ocsf {
  import opened Options

  datatype Kind =
    | AgentAccepted | AgentCompleted | AgentAwaitingInput | AgentMigrating | AgentFailed | AgentCancelled
    | ProviderProposed | ProviderFailed | PolicyReloaded | ToolExecuted | ToolReplayed | ToolFailed | ToolKilled
    | ToolRefused | ContentRejected | ApprovalRequested | ApprovalApproved | ApprovalUsed | ApprovalDenied
    | ApprovalExpired

  datatype Name =
    // keys of the OCSF record
    | ActivityId | ActivityName | Api | Actor | CategoryName | CategoryUid | ClassName | ClassUid | Metadata
    | Severity | SeverityId | SrcEndpoint | Status | StatusId | Time | TypeName | TypeUid | Unmapped
    // keys inside its objects
    | Operation | Service | NameKey | Request | Uid | Data | Product | VendorName | Version | LogName | Application
    // keys of the native record
    | Details | KindKey | Key | HostId | Created | SignedAt | SignatureStatus
    // "event" and "head" are kinds, and "event" is a key as well
    | EventWord | HeadWord
    // values
    | ApiActivity | ApplicationActivity | PortmarkTitle | Portmark | PortmarkAudit | OcsfVersion
    | AuditHead | AuditEvent | IntegrityFailure
    | Unknown | Success | Failure | Informational | Medium | High
    | SignatureValid | SignatureLegacy | SignatureRevoked | SignatureExpired | Unchecked
    | EventKind(kind: Kind)
    | ClassAndActivity(activity: Name)  // "API Activity: <activity>"
    | Empty | Text(text: string)  // "", and any text not listed above

  datatype Value =
    | Null | Bool(flag: bool) | Int(whole: int) | Float(decimal: real) | Str(name: Name)
    | Arr(items: seq<Value>) | Obj(fields: map<Name, Value>)
  {
    predicate Numeric() { Bool? || Int? || Float? }

    function Number(): real
      requires Numeric()
    {
      if Bool? then (if flag then 1.0 else 0.0) else if Int? then whole as real else decimal
    }

    /** Python's truth test. */
    predicate Truthy()
    {
      match this
      case Null => false
      case Str(name) => name != Empty
      case Arr(items) => items != []
      case Obj(fields) => fields != map[]
      case _ => Number() != 0.0
    }
  }

  type Fields = map<Name, Value>

  function Get(fields: Fields, key: Name): Value { if key in fields then fields[key] else Null }

  /** Python's `==`: numbers and booleans by value, everything else by kind and content. */
  predicate Same(a: Value, b: Value)
    decreases a
  {
    if a.Numeric() && b.Numeric() then a.Number() == b.Number()
    else if a.Arr? && b.Arr? then
      |a.items| == |b.items| && forall i :: 0 <= i < |a.items| ==> Same(a.items[i], b.items[i])
    else if a.Obj? && b.Obj? then
      a.fields.Keys == b.fields.Keys && forall k :: k in a.fields ==> Same(a.fields[k], b.fields[k])
    else a == b
  }

  // ----- status, severity, activity and time -----------------------------------------------------------------

  const STATUS_UNKNOWN := 0
  const STATUS_SUCCESS := 1
  const STATUS_FAILURE := 2
  const SEVERITY_INFORMATIONAL := 1
  const SEVERITY_MEDIUM := 3
  const SEVERITY_HIGH := 4

  function EventStatus(kind: Kind): int
  {
    match kind
    case AgentAccepted | AgentCompleted | ProviderProposed | ToolExecuted | ToolReplayed => STATUS_SUCCESS
    case ApprovalRequested | ApprovalApproved | ApprovalUsed => STATUS_SUCCESS
    case AgentAwaitingInput | AgentMigrating | PolicyReloaded => STATUS_UNKNOWN
    case _ => STATUS_FAILURE
  }

  function EventSeverity(kind: Kind): int
  {
    match kind
    case AgentFailed | ProviderFailed | ToolFailed | ToolKilled | ContentRejected => SEVERITY_HIGH
    case ToolRefused | AgentCancelled | ApprovalDenied | ApprovalExpired => SEVERITY_MEDIUM
    case _ => SEVERITY_INFORMATIONAL
  }

  predicate Verified(status: Value)
  {
    status.Str? && status.name in {SignatureValid, SignatureLegacy, SignatureRevoked, SignatureExpired}
  }

  function StatusOf(native: Fields): int
  {
    if Get(native, KindKey) == Str(HeadWord) then
      var status := Get(native, SignatureStatus);
      if Verified(status) then STATUS_SUCCESS else if status == Str(Unchecked) then STATUS_UNKNOWN else STATUS_FAILURE
    else if Get(native, KindKey) != Str(EventWord) then STATUS_FAILURE
    else match Get(native, EventWord)
      case Str(EventKind(kind)) => EventStatus(kind)
      case _ => STATUS_UNKNOWN
  }

  function SeverityOf(native: Fields): int
  {
    if Get(native, KindKey) == Str(EventWord) then
      match Get(native, EventWord)
      case Str(EventKind(kind)) => EventSeverity(kind)
      case _ => SEVERITY_INFORMATIONAL
    else if Get(native, KindKey) != Str(HeadWord) then SEVERITY_HIGH
    else
      var status := Get(native, SignatureStatus);
      if Verified(status) || status == Str(Unchecked) then SEVERITY_INFORMATIONAL else SEVERITY_HIGH
  }

  function StatusName(status: int): Name
  {
    if status == STATUS_SUCCESS then Success else if status == STATUS_FAILURE then Failure else Unknown
  }

  function SeverityName(severity: int): Name
  {
    if severity == SEVERITY_HIGH then High else if severity == SEVERITY_MEDIUM then Medium else Informational
  }

  function Activity(native: Fields): Name
  {
    if Get(native, KindKey) == Str(EventWord) then
      (if Get(native, EventWord).Str? then Get(native, EventWord).name else AuditEvent)
    else if Get(native, KindKey) == Str(HeadWord) then AuditHead
    else IntegrityFailure
  }

  /** The time a record carries itself: an event's creation, a head's signing. */
  function OwnSeconds(native: Fields): Option<int>
  {
    var stamp := if Get(native, KindKey) == Str(EventWord) then Get(native, Created)
                 else if Get(native, KindKey) == Str(HeadWord) then Get(native, SignedAt) else Null;
    if stamp.Int? then Some(stamp.whole) else None
  }

  function Seconds(native: Fields, now: int): int
  {
    if OwnSeconds(native).Some? then OwnSeconds(native).value else now
  }

  // ----- the reshape and its inverse -------------------------------------------------------------------------

  function ApiOf(native: Fields, details: Option<Value>): Fields
  {
    var bare := map[Operation := Str(Activity(native)), Service := Obj(map[NameKey := Str(Portmark)])];
    if !Get(native, Key).Str? then bare
    else
      var request := map[Uid := Get(native, Key)];
      bare[Request := Obj(if details.Some? then request[Data := details.value] else request)]
  }

  function ProductOf(version: Name): Fields
  {
    var named := map[NameKey := Str(PortmarkTitle), VendorName := Str(PortmarkTitle)];
    if Str(version).Truthy() then named[Version := Str(version)] else named
  }

  function MetadataOf(native: Fields, version: Name): Fields
  {
    var bare := map[Version := Str(OcsfVersion), Product := Obj(ProductOf(version)), LogName := Str(PortmarkAudit)];
    if Get(native, Key).Str? then bare[Uid := Get(native, Key)] else bare
  }

  function Host(native: Fields): Value
  {
    if Get(native, HostId).Truthy() then Get(native, HostId) else Str(Empty)
  }

  function Endpoint(native: Fields): Value { Obj(map[NameKey := Str(Portmark), Uid := Host(native)]) }

  /** The OCSF fields over a native record whose details were taken out. */
  function Projected(native: Fields, details: Option<Value>, version: Name, now: int): Fields
  {
    map[ActivityId := Int(99), ActivityName := Str(Activity(native)), Api := Obj(ApiOf(native, details)),
        Actor := Obj(map[Application := Endpoint(native)]),
        CategoryName := Str(ApplicationActivity), CategoryUid := Int(6),
        ClassName := Str(ApiActivity), ClassUid := Int(6003), Metadata := Obj(MetadataOf(native, version)),
        Severity := Str(SeverityName(SeverityOf(native))), SeverityId := Int(SeverityOf(native)),
        SrcEndpoint := Endpoint(native),
        Status := Str(StatusName(StatusOf(native))), StatusId := Int(StatusOf(native)),
        Time := Int(Seconds(native, now) * 1000),
        TypeName := Str(ClassAndActivity(Activity(native))), TypeUid := Int(600399),
        Unmapped := Obj(map[Portmark := Obj(native)])]
  }

  /** `to_ocsf`. */
  function ToOcsf(record: Fields, version: Name, now: int): Fields
  {
    Projected(record - {Details}, if Details in record then Some(record[Details]) else None, version, now)
  }

  /** `from_ocsf`; None when the record did not come from Portmark. */
  function FromOcsf(record: Fields): Option<Fields>
  {
    var unmapped := Get(record, Unmapped);
    if !unmapped.Obj? || !Get(unmapped.fields, Portmark).Obj? then None
    else
      var native := Get(unmapped.fields, Portmark).fields;
      var api := Get(record, Api);
      var request := if api.Obj? then Get(api.fields, Request) else Null;
      Some(if request.Obj? && Data in request.fields then native[Details := request.fields[Data]] else native)
  }

  // ----- the check on reading --------------------------------------------------------------------------------

  function PresentedVersion(record: Fields): Name
  {
    var metadata := Get(record, Metadata);
    var product := if metadata.Obj? then Get(metadata.fields, Product) else Null;
    var version := if product.Obj? then Get(product.fields, Version) else Null;
    if version.Str? then version.name else Empty
  }

  function PresentedSeconds(record: Fields): int
  {
    if Get(record, Time).Int? then Get(record, Time).whole / 1000 else 0
  }

  /** `projection_mismatch` finds nothing. */
  predicate Describes(record: Fields, native: Fields)
  {
    Same(Obj(ToOcsf(native, PresentedVersion(record), PresentedSeconds(record))), Obj(record))
  }

  // ----- the results -----------------------------------------------------------------------------------------

  lemma {:induction false} SameReflexive(a: Value)
    ensures Same(a, a)
    decreases a
  {
    if a.Arr? {
      forall i | 0 <= i < |a.items| ensures Same(a.items[i], a.items[i]) { SameReflexive(a.items[i]); }
    } else if a.Obj? {
      forall k | k in a.fields ensures Same(a.fields[k], a.fields[k]) { SameReflexive(a.fields[k]); }
    }
  }

  /**
    A record is loud exactly when it reports a failure: no failed outcome, unverified head or integrity failure is
    shown as informational, and nothing else is shown as more.
  */
  lemma LoudExactlyOnFailure(native: Fields)
    ensures SeverityOf(native) == SEVERITY_INFORMATIONAL <==> StatusOf(native) != STATUS_FAILURE
    ensures Get(native, KindKey) == Str(HeadWord) ==>
              (StatusOf(native) == STATUS_SUCCESS <==> Verified(Get(native, SignatureStatus)))
    ensures Get(native, KindKey) != Str(HeadWord) && Get(native, KindKey) != Str(EventWord) ==>
              StatusOf(native) == STATUS_FAILURE && SeverityOf(native) == SEVERITY_HIGH
  {
  }

  /** The reshape is undone exactly, unless it had details and no string key to hang them on. */
  lemma RoundTrip(record: Fields, version: Name, now: int)
    ensures FromOcsf(ToOcsf(record, version, now)) == Some(record) <==> (Details in record ==> Get(record, Key).Str?)
    ensures FromOcsf(ToOcsf(record, version, now)).Some?
  {
    var native := record - {Details};
    var back := FromOcsf(ToOcsf(record, version, now)).value;
    assert Get(native, Key) == Get(record, Key);
    if Details !in record {
      assert native == record && back == native;
    } else if Get(record, Key).Str? {
      assert back == native[Details := record[Details]] == record;
    } else {
      assert back == native && Details !in back;
    }
  }

  /** Re-projecting an honest record with what it presents gives it back. */
  lemma HonestPasses(record: Fields, version: Name, now: int)
    ensures var written := ToOcsf(record, version, now);
            FromOcsf(written).Some? && Describes(written, FromOcsf(written).value)
  {
    RoundTrip(record, version, now);
    var written := ToOcsf(record, version, now);
    var native := FromOcsf(written).value;
    var bare := record - {Details};
    assert native - {Details} == bare;
    assert PresentedSeconds(written) == Seconds(bare, now);
    assert Seconds(bare, PresentedSeconds(written)) == Seconds(bare, now);
    VersionPresented(bare, if Details in record then Some(record[Details]) else None, version, now);
    assert ToOcsf(native, PresentedVersion(written), PresentedSeconds(written)) == written by {
      assert Get(bare, Key) == Get(record, Key);
    }
    SameReflexive(Obj(written));
  }

  lemma VersionPresented(native: Fields, details: Option<Value>, version: Name, now: int)
    ensures PresentedVersion(Projected(native, details, version, now)) == version
  {
    var record := Projected(native, details, version, now);
    assert record[Metadata] == Obj(MetadataOf(native, version));
    var product := MetadataOf(native, version)[Product];
    assert product.Obj? && Get(product.fields, Version) == if version == Empty then Null else Str(version);
  }

  /** Strings are only the same when they are equal. */
  lemma SameText(name: Name, value: Value)
    requires Same(Str(name), value)
    ensures value == Str(name)
  {
  }

  lemma SameField(a: Fields, b: Fields, key: Name)
    requires Same(Obj(a), Obj(b))
    ensures (key in a <==> key in b) && (key in a ==> Same(a[key], b[key]))
  {
    var x, y := Obj(a), Obj(b);
    assert x.fields.Keys == y.fields.Keys;
    if key in x.fields { assert Same(x.fields[key], y.fields[key]); }
  }

  lemma LabelForced(expected: Fields, record: Fields, key: Name, name: Name)
    requires Same(Obj(expected), Obj(record)) && Get(expected, key) == Str(name)
    ensures Get(record, key) == Str(name)
  {
    SameField(expected, record, key);
    SameText(name, Get(record, key));
  }

  /** The labels a record shows of a native record. */
  predicate Labelled(record: Fields, bare: Fields)
  {
    && Get(record, Status) == Str(StatusName(StatusOf(bare)))
    && Get(record, Severity) == Str(SeverityName(SeverityOf(bare)))
    && Get(record, ActivityName) == Str(Activity(bare))
    && Get(record, TypeName) == Str(ClassAndActivity(Activity(bare)))
    && Get(record, ClassName) == Str(ApiActivity)
  }

  lemma LabelsForced(expected: Fields, record: Fields, bare: Fields)
    requires Same(Obj(expected), Obj(record)) && Labelled(expected, bare)
    ensures Labelled(record, bare)
  {
    LabelForced(expected, record, Status, StatusName(StatusOf(bare)));
    LabelForced(expected, record, Severity, SeverityName(SeverityOf(bare)));
    LabelForced(expected, record, ActivityName, Activity(bare));
    LabelForced(expected, record, TypeName, ClassAndActivity(Activity(bare)));
    LabelForced(expected, record, ClassName, ApiActivity);
  }

  /** The numbers it shows, the time, and the native record it carries. */
  predicate Valued(record: Fields, bare: Fields, seconds: int)
  {
    && Same(Int(StatusOf(bare)), Get(record, StatusId)) && Same(Int(SeverityOf(bare)), Get(record, SeverityId))
    && Same(Int(6003), Get(record, ClassUid)) && Same(Int(seconds * 1000), Get(record, Time))
    && Same(Obj(map[Portmark := Obj(bare)]), Get(record, Unmapped))
  }

  predicate Numbered(expected: Fields, bare: Fields, seconds: int)
  {
    && Get(expected, StatusId) == Int(StatusOf(bare)) && Get(expected, SeverityId) == Int(SeverityOf(bare))
    && Get(expected, ClassUid) == Int(6003) && Get(expected, Time) == Int(seconds * 1000)
    && Get(expected, Unmapped) == Obj(map[Portmark := Obj(bare)])
  }

  lemma ProjectionLabels(bare: Fields, details: Option<Value>, version: Name, now: int)
    ensures Labelled(Projected(bare, details, version, now), bare)
  {
  }

  lemma ProjectionNumbers(bare: Fields, details: Option<Value>, version: Name, now: int)
    ensures Numbered(Projected(bare, details, version, now), bare, Seconds(bare, now))
  {
  }

  lemma ValuesForced(expected: Fields, record: Fields, bare: Fields, seconds: int)
    requires Same(Obj(expected), Obj(record)) && Numbered(expected, bare, seconds)
    ensures Valued(record, bare, seconds)
  {
    SameField(expected, record, StatusId);
    SameField(expected, record, SeverityId);
    SameField(expected, record, ClassUid);
    SameField(expected, record, Time);
    SameField(expected, record, Unmapped);
  }

  /**
    What a reader of a record that passes is shown: labels exact, numbers equal as numbers, the time its own where the
    native record has one, and the native record it claims to carry the one that was checked.
  */
  lemma ShownIsForced(record: Fields, native: Fields)
    requires Describes(record, native)
    ensures Labelled(record, native - {Details})
    ensures Valued(record, native - {Details}, Seconds(native - {Details}, PresentedSeconds(record)))
  {
    var details := if Details in native then Some(native[Details]) else None;
    ProjectionLabels(native - {Details}, details, PresentedVersion(record), PresentedSeconds(record));
    ProjectionNumbers(native - {Details}, details, PresentedVersion(record), PresentedSeconds(record));
    AllForced(ToOcsf(native, PresentedVersion(record), PresentedSeconds(record)), record, native - {Details},
              Seconds(native - {Details}, PresentedSeconds(record)));
  }

  lemma AllForced(expected: Fields, record: Fields, bare: Fields, seconds: int)
    requires Same(Obj(expected), Obj(record)) && Labelled(expected, bare) && Numbered(expected, bare, seconds)
    ensures Labelled(record, bare) && Valued(record, bare, seconds)
  {
    LabelsForced(expected, record, bare);
    ValuesForced(expected, record, bare, seconds);
  }

  /**
    The record is one `to_ocsf` writes, for some version and some clock. A time that is not an integer is read as zero,
    so it must be of a native record with a time of its own, or have been written at zero.
  */
  ghost predicate Written(record: Fields, native: Fields, version: Name, now: int)
  {
    && Same(Obj(ToOcsf(native, version, now)), Obj(record))
    && (Get(record, Time).Int? || OwnSeconds(native - {Details}).Some? || now == 0)
  }

  /** The check passes exactly the records that can have been written for the native record they carry. */
  lemma PassesExactly(record: Fields, native: Fields)
    ensures Describes(record, native) <==> exists version, now :: Written(record, native, version, now)
  {
    if Describes(record, native) {
      assert Written(record, native, PresentedVersion(record), PresentedSeconds(record));
    }
    if version, now :| Written(record, native, version, now) {
      var bare := native - {Details};
      VersionRead(record, native, version, now);
      TimeRead(record, native, version, now);
      assert ToOcsf(native, version, PresentedSeconds(record)) == ToOcsf(native, version, now);
    }
  }

  lemma ProductRead(version: Name, product: Fields)
    requires Same(Obj(ProductOf(version)), Obj(product))
    ensures (if Get(product, Version).Str? then Get(product, Version).name else Empty) == version
  {
    SameField(ProductOf(version), product, Version);
    if version != Empty { SameText(version, product[Version]); }
  }

  lemma VersionRead(record: Fields, native: Fields, version: Name, now: int)
    requires Same(Obj(ToOcsf(native, version, now)), Obj(record))
    ensures PresentedVersion(record) == version
  {
    var expected := ToOcsf(native, version, now);
    var metadata := MetadataOf(native - {Details}, version);
    assert expected[Metadata] == Obj(metadata) && metadata[Product] == Obj(ProductOf(version));
    SameField(expected, record, Metadata);
    SameProduct(metadata, Get(record, Metadata), version);
  }

  lemma SameProduct(expected: Fields, metadata: Value, version: Name)
    requires Get(expected, Product) == Obj(ProductOf(version)) && Same(Obj(expected), metadata)
    ensures metadata.Obj? && Get(metadata.fields, Product).Obj?
    ensures var product := Get(metadata.fields, Product).fields;
            (if Get(product, Version).Str? then Get(product, Version).name else Empty) == version
  {
    SameField(expected, metadata.fields, Product);
    ProductRead(version, metadata.fields[Product].fields);
  }

  lemma TimeRead(record: Fields, native: Fields, version: Name, now: int)
    requires Written(record, native, version, now)
    ensures Seconds(native - {Details}, PresentedSeconds(record)) == Seconds(native - {Details}, now)
  {
    SameField(ToOcsf(native, version, now), record, Time);
  }
}
