/**
 * The local runtime's database models: the markdown stored with a vulnerability
 * (its references and its location), the records built by `create`, the scan
 * progress enumeration and the session singleton held by `Database`.
 */
module Models {
  import opened Wrappers
  import Text

  /** A string-keyed dictionary as the source receives it (a reference, a metadata entry, an asset). */
  type Dict = map<string, string>

  /** `d.get(k, default)`. */
  function GetOr(d: Dict, k: string, default: string): string
  {
    if k in d then d[k] else default
  }

  /** `f'{d.get(k)}'`: a missing key is rendered as Python renders None. */
  function Show(d: Dict, k: string): string
  {
    if k in d then d[k] else "None"
  }

  /** One markdown line `label: value` followed by a hard line break. */
  function MarkdownLine(name: string, value: string): string
  {
    name + ": " + value + "  \n"
  }

  /** The lines of a list of entries, one per entry, in order. */
  function Render(entries: seq<Dict>, line: Dict -> string): string
  {
    if |entries| == 0 then "" else line(entries[0]) + Render(entries[1..], line)
  }

  lemma {:induction false} RenderConcat(a: seq<Dict>, b: seq<Dict>, line: Dict -> string)
    ensures Render(a + b, line) == Render(a, line) + Render(b, line)
    decreases |a|
  {
    if |a| == 0 {
      assert a + b == b;
    } else {
      assert (a + b)[0] == a[0];
      assert (a + b)[1..] == a[1..] + b;
      RenderConcat(a[1..], b, line);
    }
  }

  /** Each entry contributes exactly its own line, between the lines of the entries before and after it. */
  lemma {:induction false} RenderAt(entries: seq<Dict>, i: nat, line: Dict -> string)
    requires i < |entries|
    ensures Render(entries, line) == Render(entries[..i], line) + line(entries[i]) + Render(entries[i + 1..], line)
  {
    var before, here, after := entries[..i], [entries[i]], entries[i + 1..];
    assert entries == before + here + after;
    RenderConcat(before + here, after, line);
    RenderConcat(before, here, line);
    RenderSingle(entries[i], line);
  }

  lemma RenderSnoc(entries: seq<Dict>, i: nat, line: Dict -> string)
    requires i < |entries|
    ensures Render(entries[..i + 1], line) == Render(entries[..i], line) + line(entries[i])
  {
    assert entries[..i + 1] == entries[..i] + [entries[i]];
    RenderConcat(entries[..i], [entries[i]], line);
    RenderSingle(entries[i], line);
  }

  lemma RenderSingle(entry: Dict, line: Dict -> string)
    ensures Render([entry], line) == line(entry)
  {
    assert [entry][1..] == [];
  }

  // ---------------------------------------------------------------------------
  // References

  /** A reference `{title, url}`; a missing field reads as the empty string. */
  function ReferenceLine(reference: Dict): string
  {
    MarkdownLine(GetOr(reference, "title", ""), GetOr(reference, "url", ""))
  }

  /** The references markdown: None and the empty list give "", otherwise one line per reference. */
  function ReferencesMarkdown(references: Option<seq<Dict>>): string
  {
    match references
    case None => ""
    case Some(refs) => Render(refs, ReferenceLine)
  }

  method PrepareReferencesMarkdown(references: Option<seq<Dict>>) returns (md: string)
    ensures md == ReferencesMarkdown(references)
  {
    if references.None? || |references.value| == 0 {
      return "";
    }
    var refs := references.value;
    md := "";
    for i := 0 to |refs|
      invariant md == Render(refs[..i], ReferenceLine)
    {
      var title := GetOr(refs[i], "title", "");
      var url := GetOr(refs[i], "url", "");
      RenderSnoc(refs, i, ReferenceLine);
      md := md + MarkdownLine(title, url);
    }
    assert refs[..|refs|] == refs;
  }

  /** Reference i is rendered as `title: url  \n`, in input order, and nothing else is added. */
  lemma ReferencesMarkdownAt(refs: seq<Dict>, i: nat)
    requires i < |refs|
    ensures ReferencesMarkdown(Some(refs)) ==
      Render(refs[..i], ReferenceLine) + ReferenceLine(refs[i]) + Render(refs[i + 1..], ReferenceLine)
  {
    RenderAt(refs, i, ReferenceLine);
  }

  /** Rendering a list in two parts is rendering each part. */
  lemma ReferencesMarkdownConcat(a: seq<Dict>, b: seq<Dict>)
    ensures ReferencesMarkdown(Some(a + b)) == ReferencesMarkdown(Some(a)) + ReferencesMarkdown(Some(b))
  {
    RenderConcat(a, b, ReferenceLine);
  }

  // ---------------------------------------------------------------------------
  // Location

  /** The asset kinds a location may describe. */
  datatype AssetKind = DomainName | Ipv4 | Ipv6 | AndroidStore | IosStore

  /** The order in which the kinds are tried: the first one present decides the header. */
  const AssetPriority: seq<AssetKind> := [DomainName, Ipv4, Ipv6, AndroidStore, IosStore]

  /** The `metadata` entry of a location: missing, present as null, or a list of `{type, value}`. */
  datatype MetadataField = NoMetadata | NullMetadata | MetadataList(entries: seq<Dict>)

  /**
   * A vulnerability location. An asset field is None when its key is missing or
   * holds null: the source treats both alike (`location.get(kind) is not None`).
   */
  datatype Location = Location(
    domainName: Option<Dict>,
    ipv4: Option<Dict>,
    ipv6: Option<Dict>,
    androidStore: Option<Dict>,
    iosStore: Option<Dict>,
    metadata: MetadataField)

  datatype LocationError =
    | UnknownAsset(location: Location)   // ValueError: none of the five kinds is present
    | MetadataNotIterable                // TypeError: iterating a null `metadata`

  function Asset(l: Location, kind: AssetKind): Option<Dict>
  {
    match kind
    case DomainName => l.domainName
    case Ipv4 => l.ipv4
    case Ipv6 => l.ipv6
    case AndroidStore => l.androidStore
    case IosStore => l.iosStore
  }

  /** The header label and the field of the asset dictionary shown after it. */
  function Label(kind: AssetKind): string
  {
    match kind
    case DomainName => "Domain"
    case Ipv4 => "IPv4"
    case Ipv6 => "IPv6"
    case AndroidStore => "Android package name"
    case IosStore => "iOS bundle id"
  }

  function FieldKey(kind: AssetKind): string
  {
    match kind
    case DomainName => "name"
    case Ipv4 => "host"
    case Ipv6 => "host"
    case AndroidStore => "package_name"
    case IosStore => "bundle_id"
  }

  /** The first kind of `kinds` that the location holds. */
  function FirstPresent(l: Location, kinds: seq<AssetKind>): (r: Option<AssetKind>)
    ensures r.Some? ==> Asset(l, r.value).Some?
  {
    if |kinds| == 0 then None
    else if Asset(l, kinds[0]).Some? then Some(kinds[0])
    else FirstPresent(l, kinds[1..])
  }

  /** `FirstPresent` finds a held kind with no held kind before it, and None only when no kind is held. */
  lemma {:induction false} FirstPresentSpec(l: Location, kinds: seq<AssetKind>)
    ensures FirstPresent(l, kinds).None? <==> forall i :: 0 <= i < |kinds| ==> Asset(l, kinds[i]).None?
    ensures FirstPresent(l, kinds).Some? ==>
      exists i :: 0 <= i < |kinds| && kinds[i] == FirstPresent(l, kinds).value
        && Asset(l, kinds[i]).Some? && forall j :: 0 <= j < i ==> Asset(l, kinds[j]).None?
    decreases |kinds|
  {
    if |kinds| > 0 && Asset(l, kinds[0]).None? {
      FirstPresentSpec(l, kinds[1..]);
      var r := FirstPresent(l, kinds[1..]);
      if r.Some? {
        var i :| 0 <= i < |kinds[1..]| && kinds[1..][i] == r.value && Asset(l, kinds[1..][i]).Some?
          && forall j :: 0 <= j < i ==> Asset(l, kinds[1..][j]).None?;
        assert kinds[i + 1] == r.value;
        forall j | 0 <= j < i + 1 ensures Asset(l, kinds[j]).None? {
          if j > 0 { assert kinds[j] == kinds[1..][j - 1]; }
        }
      } else {
        forall i | 0 <= i < |kinds| ensures Asset(l, kinds[i]).None? {
          if i > 0 { assert kinds[i] == kinds[1..][i - 1]; }
        }
      }
    } else if |kinds| > 0 {
      assert kinds[0] == FirstPresent(l, kinds).value;
    }
  }

  function HeaderLine(kind: AssetKind, asset: Dict): string
  {
    MarkdownLine(Label(kind), Show(asset, FieldKey(kind)))
  }

  /** A metadata entry `{type, value}`; missing fields render as None. */
  function MetadataLine(entry: Dict): string
  {
    MarkdownLine(Show(entry, "type"), Show(entry, "value"))
  }

  /** The metadata lines; a null metadata has none (the caller reports it as an error). */
  function MetadataMarkdown(metadata: MetadataField): string
  {
    match metadata
    case MetadataList(entries) => Render(entries, MetadataLine)
    case _ => ""
  }

  /**
   * The location markdown: "" for no location, otherwise the header of the first
   * present kind in `AssetPriority`, then one line per metadata entry.
   */
  function LocationMarkdown(location: Option<Location>): Result<string, LocationError>
  {
    match location
    case None => Ok("")
    case Some(l) =>
      match FirstPresent(l, AssetPriority)
      case None => Err(UnknownAsset(l))
      case Some(kind) =>
        if l.metadata.NullMetadata? then Err(MetadataNotIterable)
        else Ok(HeaderLine(kind, Asset(l, kind).value) + MetadataMarkdown(l.metadata))
  }

  /** The header line of the if/elif chain over the five kinds; None where the source raises. */
  method LocationHeader(l: Location) returns (header: Option<string>)
    ensures header.None? <==> FirstPresent(l, AssetPriority).None?
    ensures header.Some? ==>
      header.value == HeaderLine(FirstPresent(l, AssetPriority).value, Asset(l, FirstPresent(l, AssetPriority).value).value)
  {
    ghost var kind: AssetKind;
    if l.domainName.Some? {
      header := Some(MarkdownLine("Domain", Show(l.domainName.value, "name")));
      kind := FirstPresentAt(l, 0);
    } else if l.ipv4.Some? {
      header := Some(MarkdownLine("IPv4", Show(l.ipv4.value, "host")));
      kind := FirstPresentAt(l, 1);
    } else if l.ipv6.Some? {
      header := Some(MarkdownLine("IPv6", Show(l.ipv6.value, "host")));
      kind := FirstPresentAt(l, 2);
    } else if l.androidStore.Some? {
      header := Some(MarkdownLine("Android package name", Show(l.androidStore.value, "package_name")));
      kind := FirstPresentAt(l, 3);
    } else if l.iosStore.Some? {
      header := Some(MarkdownLine("iOS bundle id", Show(l.iosStore.value, "bundle_id")));
      kind := FirstPresentAt(l, 4);
    } else {
      LocationMarkdownUnknown(l);
      return None;
    }
  }

  method PrepareVulnLocationMarkdown(location: Option<Location>) returns (r: Result<string, LocationError>)
    ensures r == LocationMarkdown(location)
  {
    if location.None? {
      return Ok("");
    }
    var l := location.value;
    var header := LocationHeader(l);
    if header.None? {
      return Err(UnknownAsset(l));
    }
    match l.metadata {
      case NullMetadata => return Err(MetadataNotIterable);
      case NoMetadata =>
        assert header.value + MetadataMarkdown(l.metadata) == header.value;
        return Ok(header.value);
      case MetadataList(entries) =>
        var md := AppendMetadataLines(header.value, entries);
        return Ok(md);
    }
  }

  /** The `for metadata_dict in ...` loop: appends one line per entry, in order. */
  method AppendMetadataLines(prefix: string, entries: seq<Dict>) returns (md: string)
    ensures md == prefix + Render(entries, MetadataLine)
  {
    ghost var done := "";
    md := prefix;
    for i := 0 to |entries|
      invariant done == Render(entries[..i], MetadataLine)
      invariant md == prefix + done
    {
      RenderSnoc(entries, i, MetadataLine);
      var line := MarkdownLine(Show(entries[i], "type"), Show(entries[i], "value"));
      Text.ConcatAssoc(prefix, done, line);
      md := md + line;
      done := done + line;
    }
    assert entries[..|entries|] == entries;
  }

  /** A location is refused exactly when it holds none of the five kinds (or a null metadata). */
  lemma LocationMarkdownUnknown(l: Location)
    ensures LocationMarkdown(Some(l)) == Err(UnknownAsset(l)) <==>
      l.domainName.None? && l.ipv4.None? && l.ipv6.None? && l.androidStore.None? && l.iosStore.None?
  {
    FirstPresentSpec(l, AssetPriority);
    var r := FirstPresent(l, AssetPriority);
    if r.None? {
      assert Asset(l, AssetPriority[0]).None? && Asset(l, AssetPriority[1]).None?
        && Asset(l, AssetPriority[2]).None? && Asset(l, AssetPriority[3]).None? && Asset(l, AssetPriority[4]).None?;
    }
  }

  /**
   * The header is chosen by the first present kind in priority order: whatever
   * location agrees on that kind, on every kind before it and on the metadata renders the same.
   */
  lemma {:induction false} LaterKindsIgnored(l: Location, l': Location, i: nat)
    requires i < |AssetPriority|
    requires Asset(l, AssetPriority[i]).Some?
    requires forall j :: 0 <= j < i ==> Asset(l, AssetPriority[j]).None?
    requires forall j :: 0 <= j <= i ==> Asset(l', AssetPriority[j]) == Asset(l, AssetPriority[j])
    requires l'.metadata == l.metadata
    ensures LocationMarkdown(Some(l')) == LocationMarkdown(Some(l))
    ensures LocationMarkdown(Some(l)).Ok? <==> !l.metadata.NullMetadata?
    ensures LocationMarkdown(Some(l)).Ok? ==>
      LocationMarkdown(Some(l)).value == HeaderLine(AssetPriority[i], Asset(l, AssetPriority[i]).value) + MetadataMarkdown(l.metadata)
  {
    var _ := FirstPresentAt(l, i);
    var _ := FirstPresentAt(l', i);
  }

  lemma FirstPresentAt(l: Location, i: nat) returns (kind: AssetKind)
    requires i < |AssetPriority|
    requires Asset(l, AssetPriority[i]).Some?
    requires forall j :: 0 <= j < i ==> Asset(l, AssetPriority[j]).None?
    ensures kind == AssetPriority[i]
    ensures FirstPresent(l, AssetPriority) == Some(kind)
  {
    kind := AssetPriority[i];
    FirstPresentSpec(l, AssetPriority);
    var r := FirstPresent(l, AssetPriority);
    var k :| 0 <= k < |AssetPriority| && AssetPriority[k] == r.value && Asset(l, r.value).Some?
      && forall j :: 0 <= j < k ==> Asset(l, AssetPriority[j]).None?;
    assert k == i;
  }

  /** With no metadata the markdown is the header alone; each metadata entry adds `type: value  \n`. */
  lemma LocationMetadataLines(l: Location, kind: AssetKind, entries: seq<Dict>, e: Dict)
    requires FirstPresent(l, AssetPriority) == Some(kind)
    ensures LocationMarkdown(Some(l.(metadata := NoMetadata))) == Ok(HeaderLine(kind, Asset(l, kind).value))
    ensures LocationMarkdown(Some(l.(metadata := MetadataList(entries + [e])))) ==
      Ok(HeaderLine(kind, Asset(l, kind).value) + Render(entries, MetadataLine) + MetadataLine(e))
  {
    var bare, listed := l.(metadata := NoMetadata), l.(metadata := MetadataList(entries + [e]));
    assert forall k :: Asset(bare, k) == Asset(l, k) && Asset(listed, k) == Asset(l, k);
    FirstPresentSame(l, bare, AssetPriority);
    FirstPresentSame(l, listed, AssetPriority);
    var header := HeaderLine(kind, Asset(l, kind).value);
    assert MetadataMarkdown(bare.metadata) == "" && header + "" == header;
    RenderConcat(entries, [e], MetadataLine);
    RenderSingle(e, MetadataLine);
    Text.ConcatAssoc(HeaderLine(kind, Asset(l, kind).value), Render(entries, MetadataLine), MetadataLine(e));
  }

  lemma {:induction false} FirstPresentSame(l: Location, l': Location, kinds: seq<AssetKind>)
    requires forall k :: Asset(l', k) == Asset(l, k)
    ensures FirstPresent(l', kinds) == FirstPresent(l, kinds)
    decreases |kinds|
  {
    if |kinds| > 0 { FirstPresentSame(l, l', kinds[1..]); }
  }

  // ---------------------------------------------------------------------------
  // Records

  /** The fields `Vulnerability.create` passes through unchanged. */
  datatype VulnerabilityFields = VulnerabilityFields(
    scanId: int,
    title: string,
    shortDescription: string,
    description: string,
    recommendation: string,
    technicalDetail: string,
    riskRating: string,
    cvssV3Vector: string,
    dna: string)

  datatype Vulnerability = Vulnerability(fields: VulnerabilityFields, references: string, location: string)

  /** The record `Vulnerability.create` persists; it fails exactly when the location is refused. */
  method CreateVulnerability(fields: VulnerabilityFields, references: Option<seq<Dict>>, location: Option<Location>)
    returns (r: Result<Vulnerability, LocationError>)
    ensures r.Err? <==> LocationMarkdown(location).Err?
    ensures r.Err? ==> r.error == LocationMarkdown(location).error
    ensures r.Ok? ==>
      && r.value.fields == fields
      && r.value.references == ReferencesMarkdown(references)
      && r.value.location == LocationMarkdown(location).value
  {
    var refs := PrepareReferencesMarkdown(references);
    var loc := PrepareVulnLocationMarkdown(location);
    match loc {
      case Err(e) => r := Err(e);
      case Ok(md) => r := Ok(Vulnerability(fields, refs, md));
    }
  }

  /** `ScanProgress`: the database stores members by name; the remote service uses the values. */
  datatype ScanProgress = NotStarted | InProgress | Stopped | Done | Error

  function ProgressName(p: ScanProgress): string
  {
    match p
    case NotStarted => "NOT_STARTED"
    case InProgress => "IN_PROGRESS"
    case Stopped => "STOPPED"
    case Done => "DONE"
    case Error => "ERROR"
  }

  function ProgressValue(p: ScanProgress): string
  {
    match p
    case NotStarted => "not_started"
    case InProgress => "in_progress"
    case Stopped => "stopped"
    case Done => "done"
    case Error => "error"
  }

  /** `ScanProgress[name]`, None for a name that is not a member. */
  function ProgressFromName(name: string): (r: Option<ScanProgress>)
    ensures r.Some? ==> ProgressName(r.value) == name
    ensures forall p: ScanProgress :: ProgressName(p) == name ==> r == Some(p)
  {
    if name == "NOT_STARTED" then Some(NotStarted)
    else if name == "IN_PROGRESS" then Some(InProgress)
    else if name == "STOPPED" then Some(Stopped)
    else if name == "DONE" then Some(Done)
    else if name == "ERROR" then Some(Error)
    else None
  }

  /** `ScanProgress(value)`, None for a value that is not a member's. */
  function ProgressFromValue(value: string): (r: Option<ScanProgress>)
    ensures r.Some? ==> ProgressValue(r.value) == value
    ensures forall p: ScanProgress :: ProgressValue(p) == value ==> r == Some(p)
  {
    if value == "not_started" then Some(NotStarted)
    else if value == "in_progress" then Some(InProgress)
    else if value == "stopped" then Some(Stopped)
    else if value == "done" then Some(Done)
    else if value == "error" then Some(Error)
    else None
  }

  /** A scan row; `createdTime` is the clock reading taken by `create`. */
  datatype ScanRecord = ScanRecord(title: string, asset: string, createdTime: int, progress: ScanProgress)

  /** `Scan.create` stores the progress by the name "NOT_STARTED". */
  function CreateScan(asset: string, title: string, now: int): (s: ScanRecord)
    ensures Some(s.progress) == ProgressFromName("NOT_STARTED")
    ensures s.progress == NotStarted
    ensures s.title == title && s.asset == asset && s.createdTime == now
  {
    ScanRecord(title, asset, now, NotStarted)
  }

  // ---------------------------------------------------------------------------
  // Session singleton

  /** A database session; only whether it was closed is modelled. */
  class Session {
    var closed: bool

    constructor ()
      ensures !closed
    {
      closed := false;
    }

    method Close()
      modifies this
      ensures closed
    {
      closed := true;
    }
  }

  /** `Database`: holds at most one session, created on first use. */
  class Database {
    var dbSession: Session?

    constructor ()
      ensures dbSession == null
    {
      dbSession := null;
    }

    /** Creates the session only when none exists; afterwards always returns the same one. */
    method PrepareDbSession() returns (s: Session)
      modifies this
      ensures old(dbSession) != null ==> s == old(dbSession)
      ensures old(dbSession) == null ==> fresh(s) && !s.closed
      ensures dbSession == s
    {
      if dbSession == null {
        dbSession := new Session();
        return dbSession;
      } else {
        return dbSession;
      }
    }

    /** `__exit__`: closes the session if one was created; otherwise nothing changes. */
    method Exit()
      modifies dbSession
      ensures dbSession == old(dbSession)
      ensures dbSession != null ==> dbSession.closed
    {
      if dbSession != null {
        dbSession.Close();
      }
    }
  }
}
