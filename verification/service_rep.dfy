/** The eCAP service side (Adaptation::Ecap::ServiceRep and the directory
    of adapter services that loaded modules register).

    The directory is the list TheServices, keyed by service URI. Lookups
    and removals act on the first entry with a matching URI; registration
    replaces that entry in place or appends a new one. A configured service
    is up exactly when finalize() found an adapter service for its URI.
 */
module ServiceRep {
  import opened Outcomes
  import opened Adapters
  import opened XactionRep

  /** A loaded adapter service: its URI and which module object it is. */
  datatype AdapterService = AdapterService(uri: string, id: nat)

  /** TheServices, in list order. */
  type Directory = seq<AdapterService>

  /** No entry of `list` has this URI. */
  predicate NoMatch(list: Directory, uri: string) {
    forall j :: 0 <= j < |list| ==> list[j].uri != uri
  }

  /** Entry `i` is the first one with this URI. */
  predicate IsFirstMatch(list: Directory, uri: string, i: nat) {
    && i < |list| && list[i].uri == uri
    && forall j :: 0 <= j < i ==> list[j].uri != uri
  }

  /** No two entries share a URI. */
  predicate UniqueUris(list: Directory) {
    forall i, j :: 0 <= i < j < |list| ==> list[i].uri != list[j].uri
  }

  // ---------------------------------------------------------------------
  // The directory

  /** Where the front-to-back scan of the directory stops for this URI. */
  function FirstIndex(list: Directory, uri: string): (r: Option<nat>)
    ensures r.None? <==> NoMatch(list, uri)
    ensures r.Some? ==> IsFirstMatch(list, uri, r.value)
    decreases |list|
  {
    if list == [] then
      None
    else if list[0].uri == uri then
      Some(0)
    else
      match FirstIndex(list[1..], uri)
      case None => None
      case Some(i) => Some(i + 1)
  }

  /** FindAdapterService(uri): the first entry with this URI, or nothing. */
  function FindAdapterService(list: Directory, uri: string): (r: Option<AdapterService>)
    ensures r.None? <==> NoMatch(list, uri)
    ensures r.Some? ==> exists i: nat :: IsFirstMatch(list, uri, i) && r.value == list[i]
  {
    match FirstIndex(list, uri)
    case None => None
    case Some(i) => Some(list[i])
  }

  /** A list with a match at `i` or none at all: FirstIndex finds exactly that. */
  lemma FirstIndexIs(list: Directory, uri: string, i: nat)
    requires IsFirstMatch(list, uri, i)
    ensures FirstIndex(list, uri) == Some(i)
  {
    FirstMatchUnique(list, uri, i, FirstIndex(list, uri).value);
  }

  /** The first match is unique. */
  lemma FirstMatchUnique(list: Directory, uri: string, i: nat, j: nat)
    requires IsFirstMatch(list, uri, i) && IsFirstMatch(list, uri, j)
    ensures i == j
  {
  }

  /** RegisterAdapterService(s): replace the first entry with s's URI, or
      append s when there is none. */
  function RegisterAdapterService(list: Directory, s: AdapterService): (r: Directory)
    ensures FirstIndex(list, s.uri).Some? ==> r == list[FirstIndex(list, s.uri).value := s]
    ensures FirstIndex(list, s.uri).None? ==> r == list + [s]
    ensures forall j :: 0 <= j < |r| ==> r[j] == s || (j < |list| && r[j] == list[j])
    decreases |list|
  {
    if list == [] then
      [s]
    else if list[0].uri == s.uri then
      [s] + list[1..]
    else
      var rest := RegisterAdapterService(list[1..], s);
      RegisterPastHead(list, s, rest);
      [list[0]] + rest
  }

  /** Registration past a head entry with another URI: what registering in
      the tail gives, behind that head. */
  lemma RegisterPastHead(list: Directory, s: AdapterService, rest: Directory)
    requires list != [] && list[0].uri != s.uri
    requires FirstIndex(list[1..], s.uri).Some? ==> rest == list[1..][FirstIndex(list[1..], s.uri).value := s]
    requires FirstIndex(list[1..], s.uri).None? ==> rest == list[1..] + [s]
    ensures FirstIndex(list, s.uri).Some? ==> [list[0]] + rest == list[FirstIndex(list, s.uri).value := s]
    ensures FirstIndex(list, s.uri).None? ==> [list[0]] + rest == list + [s]
  {
    match FirstIndex(list[1..], s.uri)
    case Some(i) =>
      assert FirstIndex(list, s.uri) == Some(i + 1);
      assert [list[0]] + rest == list[i + 1 := s];
    case None =>
      assert FirstIndex(list, s.uri).None?;
      assert [list[0]] + rest == list + [s];
  }

  /** UnregisterAdapterService(uri): erase the first entry with this URI;
      nothing happens when there is none. */
  function UnregisterAdapterService(list: Directory, uri: string): (r: Directory)
    ensures FirstIndex(list, uri).Some? ==>
              var i := FirstIndex(list, uri).value;
              r == list[..i] + list[i + 1..]
    ensures FirstIndex(list, uri).None? ==> r == list
    decreases |list|
  {
    if list == [] then
      []
    else if list[0].uri == uri then
      list[1..]
    else
      [list[0]] + UnregisterAdapterService(list[1..], uri)
  }

  /** After registering s, looking up its URI finds s. */
  lemma FindAfterRegister(list: Directory, s: AdapterService)
    ensures FindAdapterService(RegisterAdapterService(list, s), s.uri) == Some(s)
  {
    var r := RegisterAdapterService(list, s);
    match FirstIndex(list, s.uri)
    case None =>
      assert IsFirstMatch(r, s.uri, |list|);
      FirstIndexIs(r, s.uri, |list|);
    case Some(i) =>
      assert IsFirstMatch(r, s.uri, i);
      FirstIndexIs(r, s.uri, i);
  }

  /** Registering s leaves lookups of every other URI alone. */
  lemma RegisterKeepsOthers(list: Directory, s: AdapterService, uri: string)
    requires uri != s.uri
    ensures FindAdapterService(RegisterAdapterService(list, s), uri) == FindAdapterService(list, uri)
  {
    var r := RegisterAdapterService(list, s);
    match FirstIndex(list, uri)
    case None =>
      assert NoMatch(r, uri);
    case Some(i) =>
      assert r[i] == list[i];
      assert IsFirstMatch(r, uri, i);
      FirstIndexIs(r, uri, i);
  }

  /** Registration keeps URIs unique. */
  lemma RegisterKeepsUnique(list: Directory, s: AdapterService)
    requires UniqueUris(list)
    ensures UniqueUris(RegisterAdapterService(list, s))
  {
    var r := RegisterAdapterService(list, s);
    match FirstIndex(list, s.uri)
    case None =>
      assert forall j :: 0 <= j < |list| ==> r[j] == list[j];
    case Some(i) =>
      assert forall j :: 0 <= j < |r| ==> r[j].uri == list[j].uri;
  }

  /** Registering the same service twice is registering it once. */
  lemma RegisterIdempotent(list: Directory, s: AdapterService)
    ensures RegisterAdapterService(RegisterAdapterService(list, s), s) == RegisterAdapterService(list, s)
  {
    var r := RegisterAdapterService(list, s);
    match FirstIndex(list, s.uri)
    case None =>
      assert IsFirstMatch(r, s.uri, |list|);
      FirstIndexIs(r, s.uri, |list|);
      assert r[|list| := s] == r;
    case Some(i) =>
      assert IsFirstMatch(r, s.uri, i);
      FirstIndexIs(r, s.uri, i);
      assert r[i := s] == r;
  }

  /** Registering a new URI and then unregistering it restores the directory. */
  lemma UnregisterUndoesRegister(list: Directory, s: AdapterService)
    requires NoMatch(list, s.uri)
    ensures UnregisterAdapterService(RegisterAdapterService(list, s), s.uri) == list
  {
    var r := RegisterAdapterService(list, s);
    assert IsFirstMatch(r, s.uri, |list|);
    FirstIndexIs(r, s.uri, |list|);
    assert r[..|list|] == list;
  }

  /** Erasing entry i shifts every later entry down by one. */
  lemma EraseAt(list: Directory, i: nat, r: Directory)
    requires i < |list| && r == list[..i] + list[i + 1..]
    ensures |r| == |list| - 1
    ensures forall j :: 0 <= j < i ==> r[j] == list[j]
    ensures forall j :: i <= j < |r| ==> r[j] == list[j + 1]
  {
  }

  /** With unique URIs, unregistering a URI makes it unknown. */
  lemma UnregisterForgets(list: Directory, uri: string)
    requires UniqueUris(list)
    ensures FindAdapterService(UnregisterAdapterService(list, uri), uri).None?
    ensures UniqueUris(UnregisterAdapterService(list, uri))
  {
    var r := UnregisterAdapterService(list, uri);
    match FirstIndex(list, uri)
    case None =>
    case Some(i) =>
      EraseAt(list, i, r);
      forall j | 0 <= j < |r|
        ensures r[j].uri != uri
      {
        if j >= i {
          assert r[j] == list[j + 1];
        }
      }
      forall a, b | 0 <= a < b < |r|
        ensures r[a].uri != r[b].uri
      {
        var a' := if a < i then a else a + 1;
        var b' := if b < i then b else b + 1;
        assert r[a] == list[a'] && r[b] == list[b'];
      }
  }

  // ---------------------------------------------------------------------
  // Loaded services nobody configured

  /** The URIs of the loaded services that no configured service names,
      in directory order. */
  function Unconfigured(loaded: Directory, configured: seq<string>): (r: seq<string>)
    ensures |r| <= |loaded|
    ensures forall u :: u in r <==> u !in configured && exists i :: 0 <= i < |loaded| && loaded[i].uri == u
    decreases |loaded|
  {
    if loaded == [] then
      []
    else
      var last := loaded[|loaded| - 1];
      var prefix := Unconfigured(loaded[..|loaded| - 1], configured);
      assert forall i :: 0 <= i < |loaded| - 1 ==> loaded[..|loaded| - 1][i] == loaded[i];
      prefix + (if last.uri in configured then [] else [last.uri])
  }

  /** CheckUnusedAdapterServices(cfgs): for each loaded service, search the
      configured URIs until one matches; warn about the service when none
      does. The warnings are returned instead of logged. */
  method CheckUnusedAdapterServices(loaded: Directory, configured: seq<string>) returns (warned: seq<string>)
    ensures warned == Unconfigured(loaded, configured)
  {
    warned := [];
    var i := 0;
    while i < |loaded|
      invariant 0 <= i <= |loaded|
      invariant warned == Unconfigured(loaded[..i], configured)
    {
      var found := false;
      var k := 0;
      while k < |configured| && !found
        invariant 0 <= k <= |configured|
        invariant found <==> loaded[i].uri in configured[..k]
      {
        found := configured[k] == loaded[i].uri;
        k := k + 1;
      }
      assert !found ==> k == |configured| && configured[..k] == configured;
      if !found {
        warned := warned + [loaded[i].uri];
      }
      assert loaded[..i + 1][..i] == loaded[..i];
      i := i + 1;
    }
    assert loaded[..i] == loaded;
  }

  // ---------------------------------------------------------------------
  // The configuration as the adapter sees it

  /** ServiceConfig: the service key, its URI, whether failures may be
      bypassed, and the adapter-specific options in stored order. */
  datatype ServiceConfig = ServiceConfig(
    key: string,
    uri: string,
    bypass: bool,
    extensions: seq<(string, string)>)

  const BypassName: string := "bypassable"

  /** ConfigRep::visitEach(): the name/value pairs the visitor receives, in order. */
  function VisitEach(cfg: ServiceConfig): (r: seq<(string, string)>)
    ensures |r| == |cfg.extensions| + 1
    ensures r[0].0 == BypassName && |r[0].1| == 1
    ensures cfg.bypass <==> r[0].1 == "1"
    ensures r[0] == (BypassName, if cfg.bypass then "1" else "0")
    ensures forall i :: 0 <= i < |cfg.extensions| ==> r[i + 1] == cfg.extensions[i]
  {
    [(BypassName, if cfg.bypass then "1" else "0")] + cfg.extensions
  }

  /** What an adapter can recover from the visited pairs: the bypass flag
      and the adapter-specific options. */
  function ReadVisits(visits: seq<(string, string)>): Option<(bool, seq<(string, string)>)> {
    if |visits| > 0 && visits[0].0 == BypassName && visits[0].1 in {"0", "1"} then
      Some((visits[0].1 == "1", visits[1..]))
    else
      None
  }

  /** The visitor loses nothing: the bypass flag and every option, in order,
      can be read back. */
  lemma VisitEachRoundTrip(cfg: ServiceConfig)
    ensures ReadVisits(VisitEach(cfg)) == Some((cfg.bypass, cfg.extensions))
  {
    var r := VisitEach(cfg);
    assert r[1..] == cfg.extensions;
  }

  // ---------------------------------------------------------------------
  // The service

  datatype Service = Service(
    cfg: ServiceConfig,
    adapter: Option<AdapterService>,  // theService
    isDetached: bool)

  /** The constructor: not yet finalized, not detached. */
  function NewService(cfg: ServiceConfig): (svc: Service)
    ensures !Up(svc) && !Detached(svc) && svc.cfg == cfg
  {
    Service(cfg, None, false)
  }

  /** up(): an adapter service was found for the configured URI. */
  function Up(svc: Service): (b: bool)
    ensures b <==> svc.adapter != None
  {
    svc.adapter.Some?
  }

  /** detached() */
  function Detached(svc: Service): (b: bool)
    ensures b <==> svc.isDetached
  {
    svc.isDetached
  }

  /** finalize(): look the configured URI up in the directory. */
  function Finalize(svc: Service, directory: Directory): (r: Service)
    ensures Up(r) <==> !NoMatch(directory, svc.cfg.uri)
    ensures Up(r) ==> r.adapter.value.uri == svc.cfg.uri && r.adapter.value in directory
    ensures r.cfg == svc.cfg && r.isDetached == svc.isDetached
  {
    svc.(adapter := FindAdapterService(directory, svc.cfg.uri))
  }

  /** wantsUrl(path): only an up service may be asked; the answer is the
      adapter service's own, passed in as `adapterWants`. */
  function WantsUrl(svc: Service, adapterWants: bool): (r: Result<bool>)
    ensures r.Ok? <==> Up(svc)
    ensures r.Ok? ==> r.value == adapterWants
    ensures r.Fail? ==> r.violation == ServiceDown
  {
    var _ :- Must(Up(svc), ServiceDown);
    Ok(adapterWants)
  }

  /** makeXactLauncher(virgin, cause): only an up service makes transactions;
      `x` is what the adapter service's makeXaction() returned. */
  function MakeXactLauncher(svc: Service, virgin: VirginMsg, hasCause: bool, x: Option<Adapter>): (r: Result<Xaction>)
    ensures r.Ok? <==> Up(svc) && x.Some?
    ensures !Up(svc) ==> r == Fail(ServiceDown)
    ensures r.Ok? ==> r.value.serviceKey == svc.cfg.key && r.value.master == x
    ensures r.Ok? ==> r.value.(master := None) == New(virgin, hasCause, svc.cfg.key)
  {
    var _ :- Must(Up(svc), ServiceDown);
    Launch(virgin, hasCause, svc.cfg.key, x)
  }

  /** detach() */
  function Detach(svc: Service): (r: Service)
    ensures Detached(r) && Up(r) == Up(svc)
    ensures r.(isDetached := svc.isDetached) == svc
  {
    svc.(isDetached := true)
  }

  /** status(): "[up" or "[down", then ",detached" when detached, then "]". */
  function Status(svc: Service): (r: string)
    ensures |r| >= 4 && r[0] == '[' && r[|r| - 1] == ']'
    ensures |r| == (if Up(svc) then 4 else 6) + (if Detached(svc) then 9 else 0)
  {
    "[" + (if Up(svc) then "up" else "down") + (if Detached(svc) then ",detached" else "") + "]"
  }

  /** Reads a status string back into (up, detached). */
  function ReadStatus(r: string): Option<(bool, bool)> {
    if r == "[up]" then Some((true, false))
    else if r == "[down]" then Some((false, false))
    else if r == "[up,detached]" then Some((true, true))
    else if r == "[down,detached]" then Some((false, true))
    else None
  }

  /** The status string tells both flags apart. */
  lemma StatusRoundTrip(svc: Service)
    ensures ReadStatus(Status(svc)) == Some((Up(svc), Detached(svc)))
  {
  }

  /** A finalized service that is detached still reports whether it is up. */
  lemma DetachKeepsUp(svc: Service, directory: Directory)
    ensures Up(Detach(Finalize(svc, directory))) <==> FindAdapterService(directory, svc.cfg.uri).Some?
    ensures ReadStatus(Status(Detach(Finalize(svc, directory)))) ==
              Some((FindAdapterService(directory, svc.cfg.uri).Some?, true))
  {
    StatusRoundTrip(Detach(Finalize(svc, directory)));
  }
}
