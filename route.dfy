/**
 * The `GET /api/dns-lookup` route handler: it checks the `domain` query parameter, asks the resolver once
 * for each record type in a fixed order, and answers with one dictionary entry per type. A query that throws
 * is recorded as the string "No record found" instead of failing the request.
 *
 * The resolver is an oracle: four functions standing for the system resolver's `resolve`, `resolveMx`,
 * `resolveTxt` and `resolveSoa`, each settling to an answer or a thrown error.
 */
module DnsRoute {
  import opened Wrappers
  import opened Json

  /** The record types the route queries, in the order it queries them. */
  const RecordTypes: seq<string> := ["A", "AAAA", "MX", "NS", "TXT", "CNAME", "SOA"]

  /** The types served by the resolver's generic `resolve(domain, type)` call. */
  const GenericTypes: set<string> := {"A", "AAAA", "CNAME", "NS"}

  const NoRecordFound := "No record found"
  const UnsupportedRecordType := "Unsupported record type"
  const DomainRequired := "Domain parameter is required"

  datatype MxRecord = MxRecord(exchange: string, priority: int)

  datatype SoaRecord = SoaRecord(
    nsname: string, hostmaster: string,
    serial: int, refresh: int, retry: int, expire: int, minttl: int)

  /** How an awaited resolver call settles. Every reason is handled alike. */
  datatype Outcome<+T> = Answer(value: T) | Threw(reason: string)

  /** A value stored in the results dictionary: a resolver payload of one of four shapes, or a string. */
  datatype RawValue =
    | Names(names: seq<string>)
    | MxList(exchanges: seq<MxRecord>)
    | TxtList(chunks: seq<seq<string>>)
    | Soa(soa: SoaRecord)
    | Text(text: string)

  /** The resolver capability. */
  datatype Resolver = Resolver(
    resolve: (string, string) -> Outcome<seq<string>>,
    resolveMx: string -> Outcome<seq<MxRecord>>,
    resolveTxt: string -> Outcome<seq<seq<string>>>,
    resolveSoa: string -> Outcome<SoaRecord>)

  /** One call into the resolver. */
  datatype Call =
    | Resolve(domain: string, rrtype: string)
    | ResolveMx(domain: string)
    | ResolveTxt(domain: string)
    | ResolveSoa(domain: string)
  {
    /** The record type a call asks for. */
    function RecordType(): string {
      match this
      case Resolve(_, t) => t
      case ResolveMx(_) => "MX"
      case ResolveTxt(_) => "TXT"
      case ResolveSoa(_) => "SOA"
    }
  }

  /** The resolver call the `resolveDns` switch makes for a record type, if any. */
  function Dispatch(domain: string, recordType: string): (c: Option<Call>)
    ensures c.Some? <==> recordType in RecordTypes
    ensures c.Some? ==> c.value.domain == domain && c.value.RecordType() == recordType
    ensures (c.Some? && c.value.Resolve?) <==> recordType in GenericTypes
  {
    if recordType in GenericTypes then Some(Resolve(domain, recordType))
    else if recordType == "MX" then Some(ResolveMx(domain))
    else if recordType == "TXT" then Some(ResolveTxt(domain))
    else if recordType == "SOA" then Some(ResolveSoa(domain))
    else None
  }

  function AsNames(o: Outcome<seq<string>>): Outcome<RawValue> {
    match o
    case Answer(ns) => Answer(Names(ns))
    case Threw(e) => Threw(e)
  }

  function AsMx(o: Outcome<seq<MxRecord>>): Outcome<RawValue> {
    match o
    case Answer(mx) => Answer(MxList(mx))
    case Threw(e) => Threw(e)
  }

  function AsTxt(o: Outcome<seq<seq<string>>>): Outcome<RawValue> {
    match o
    case Answer(cs) => Answer(TxtList(cs))
    case Threw(e) => Threw(e)
  }

  function AsSoa(o: Outcome<SoaRecord>): Outcome<RawValue> {
    match o
    case Answer(s) => Answer(Soa(s))
    case Threw(e) => Threw(e)
  }

  /** Performs one resolver call. */
  function Invoke(dns: Resolver, c: Call): Outcome<RawValue> {
    match c
    case Resolve(d, t) => AsNames(dns.resolve(d, t))
    case ResolveMx(d) => AsMx(dns.resolveMx(d))
    case ResolveTxt(d) => AsTxt(dns.resolveTxt(d))
    case ResolveSoa(d) => AsSoa(dns.resolveSoa(d))
  }

  /** `resolveDns`: routes a record type to the resolver call that serves it. */
  function ResolveDns(dns: Resolver, domain: string, recordType: string): (r: Outcome<RawValue>)
    ensures recordType in GenericTypes ==> r == AsNames(dns.resolve(domain, recordType))
    ensures recordType == "MX" ==> r == AsMx(dns.resolveMx(domain))
    ensures recordType == "TXT" ==> r == AsTxt(dns.resolveTxt(domain))
    ensures recordType == "SOA" ==> r == AsSoa(dns.resolveSoa(domain))
    ensures recordType !in RecordTypes ==> r == Answer(Text(UnsupportedRecordType))
  {
    match Dispatch(domain, recordType)
    case None => Answer(Text(UnsupportedRecordType))
    case Some(c) => Invoke(dns, c)
  }

  /** What the loop stores for a settled query: the answer itself, or the sentinel string. */
  function Stored(o: Outcome<RawValue>): RawValue {
    match o
    case Answer(v) => v
    case Threw(_) => Text(NoRecordFound)
  }

  /** A JavaScript object used as a dictionary: its entries, and its keys in insertion order. */
  datatype Dict = Dict(keys: seq<string>, entries: map<string, RawValue>)

  const EmptyDict := Dict([], map[])

  ghost predicate Distinct(s: seq<string>) {
    forall i, j :: 0 <= i < j < |s| ==> s[i] != s[j]
  }

  /** The keys list has no repeats and lists exactly the keys of the entries. */
  ghost predicate WellFormed(d: Dict) {
    Distinct(d.keys) && forall k :: k in d.entries <==> k in d.keys
  }

  /** `d[k] = v`: an existing key keeps its place, a new key goes last. This is JavaScript's order for keys
      that are not array indices, as every record type is. */
  function Put(d: Dict, k: string, v: RawValue): (r: Dict)
    ensures WellFormed(d) ==> WellFormed(r)
    ensures k in r.entries && r.entries[k] == v
    ensures forall k' :: k' != k ==> (k' in r.entries <==> k' in d.entries)
    ensures forall k' :: k' != k && k' in d.entries ==> r.entries[k'] == d.entries[k']
    ensures r.keys == if k in d.keys then d.keys else d.keys + [k]
  {
    Dict(if k in d.keys then d.keys else d.keys + [k], d.entries[k := v])
  }

  /** The dictionary after assigning `value(t)` to each key `t` of `types`, one after the other. */
  function Fill(types: seq<string>, value: string -> RawValue): Dict
    decreases |types|
  {
    if types == [] then EmptyDict
    else
      var last := types[|types| - 1];
      Put(Fill(types[..|types| - 1], value), last, value(last))
  }

  /** The dictionary after the loop has handled `types`, one after the other. */
  function Aggregate(dns: Resolver, domain: string, types: seq<string>): Dict {
    Fill(types, t => Stored(ResolveDns(dns, domain, t)))
  }

  /** The resolver calls made while handling `types`, one after the other. */
  ghost function CallsFor(domain: string, types: seq<string>): seq<Call>
    decreases |types|
  {
    if types == [] then []
    else
      var last := types[|types| - 1];
      CallsFor(domain, types[..|types| - 1]) + (match Dispatch(domain, last) case Some(c) => [c] case None => [])
  }

  lemma CallsForStep(domain: string, types: seq<string>, i: nat)
    requires i < |types| && types[i] in RecordTypes
    ensures CallsFor(domain, types[..i + 1]) == CallsFor(domain, types[..i]) + [Dispatch(domain, types[i]).value]
  {
    assert types[..i + 1][..i] == types[..i];
  }

  /** Types the switch serves make one call each, in order, for the same domain and type. */
  lemma {:induction false} CallsForTypes(domain: string, types: seq<string>)
    requires forall t :: t in types ==> t in RecordTypes
    ensures |CallsFor(domain, types)| == |types|
    ensures forall i :: 0 <= i < |types| ==>
      CallsFor(domain, types)[i] == Dispatch(domain, types[i]).value
    ensures forall i :: 0 <= i < |types| ==>
      CallsFor(domain, types)[i].domain == domain && CallsFor(domain, types)[i].RecordType() == types[i]
  {
    if types != [] {
      var init := types[..|types| - 1];
      assert forall t :: t in init ==> t in types;
      CallsForTypes(domain, init);
      var c := Dispatch(domain, types[|types| - 1]);
      assert c.Some?;
      var calls := CallsFor(domain, types);
      assert calls == CallsFor(domain, init) + [c.value];
      forall i | 0 <= i < |types|
        ensures calls[i] == Dispatch(domain, types[i]).value
        ensures calls[i].domain == domain && calls[i].RecordType() == types[i]
      {
        if i < |types| - 1 {
          assert calls[i] == CallsFor(domain, init)[i];
          assert init[i] == types[i];
        }
      }
    }
  }

  /** Handling one more type of the list puts that type's stored value into the dictionary. */
  lemma AggregateStep(dns: Resolver, domain: string, types: seq<string>, i: nat)
    requires i < |types|
    ensures Aggregate(dns, domain, types[..i + 1]) ==
      Put(Aggregate(dns, domain, types[..i]), types[i], Stored(ResolveDns(dns, domain, types[i])))
  {
    assert types[..i + 1][..i] == types[..i];
  }

  /** For distinct types, the dictionary has exactly those keys, in that order, each holding what its own
      query stored. */
  lemma AggregateEntries(dns: Resolver, domain: string, types: seq<string>)
    requires Distinct(types)
    ensures WellFormed(Aggregate(dns, domain, types))
    ensures Aggregate(dns, domain, types).keys == types
    ensures forall t :: t in Aggregate(dns, domain, types).entries <==> t in types
    ensures forall t :: t in types ==>
      Aggregate(dns, domain, types).entries[t] == Stored(ResolveDns(dns, domain, t))
  {
    FillEntries(types, t => Stored(ResolveDns(dns, domain, t)));
  }

  /** Filling distinct keys gives exactly those keys, in that order, each holding its own value. */
  lemma {:induction false} FillEntries(types: seq<string>, value: string -> RawValue)
    requires Distinct(types)
    ensures WellFormed(Fill(types, value))
    ensures Fill(types, value).keys == types
    ensures forall t :: t in Fill(types, value).entries <==> t in types
    ensures forall t :: t in types ==> Fill(types, value).entries[t] == value(t)
  {
    if types != [] {
      var init := types[..|types| - 1];
      var last := types[|types| - 1];
      assert Distinct(init);
      FillEntries(init, value);
      assert last !in init;
      assert init + [last] == types;
      forall t | t in types
        ensures t == last || t in init
      {
        var i :| 0 <= i < |types| && types[i] == t;
        if i < |types| - 1 {
          assert init[i] == t;
        }
      }
    }
  }

  lemma RecordTypesDistinct()
    ensures Distinct(RecordTypes)
  {
  }

  /** One type's entry depends on that type's query alone: two resolvers that settle the query for `t`
      alike give `t` the same entry, however the other queries go. */
  lemma FailureIsolation(dns1: Resolver, dns2: Resolver, domain: string, t: string)
    requires t in RecordTypes
    requires ResolveDns(dns1, domain, t) == ResolveDns(dns2, domain, t)
    ensures t in Aggregate(dns1, domain, RecordTypes).entries
    ensures t in Aggregate(dns2, domain, RecordTypes).entries
    ensures Aggregate(dns1, domain, RecordTypes).entries[t] == Aggregate(dns2, domain, RecordTypes).entries[t]
  {
    RecordTypesDistinct();
    AggregateEntries(dns1, domain, RecordTypes);
    AggregateEntries(dns2, domain, RecordTypes);
  }

  /** A resolver that throws for every query still yields every key, each holding the sentinel. */
  lemma TotalFailure(dns: Resolver, domain: string)
    requires forall t :: t in RecordTypes ==> ResolveDns(dns, domain, t).Threw?
    ensures Aggregate(dns, domain, RecordTypes).keys == RecordTypes
    ensures forall t :: t in RecordTypes ==>
      t in Aggregate(dns, domain, RecordTypes).entries &&
      Aggregate(dns, domain, RecordTypes).entries[t] == Text(NoRecordFound)
  {
    RecordTypesDistinct();
    AggregateEntries(dns, domain, RecordTypes);
  }

  /** The dictionary for the route's own type list, in the terms of the handler's contract. */
  lemma RouteResults(dns: Resolver, domain: string)
    ensures Aggregate(dns, domain, RecordTypes).keys == RecordTypes
    ensures forall t :: t in Aggregate(dns, domain, RecordTypes).entries <==> t in RecordTypes
    ensures forall t :: t in RecordTypes && ResolveDns(dns, domain, t).Answer? ==>
      Aggregate(dns, domain, RecordTypes).entries[t] == ResolveDns(dns, domain, t).value
    ensures forall t :: t in RecordTypes && ResolveDns(dns, domain, t).Threw? ==>
      Aggregate(dns, domain, RecordTypes).entries[t] == Text(NoRecordFound)
  {
    RecordTypesDistinct();
    AggregateEntries(dns, domain, RecordTypes);
  }

  datatype Body = ErrorBody(error: string) | ResultsBody(results: Dict)

  datatype HttpResponse = HttpResponse(status: int, body: Body)

  /** `searchParams.get("domain")` is missing or the empty string, both falsy. */
  predicate MissingDomain(domain: Option<string>) {
    domain.None? || domain.value == ""
  }

  /**
   * The `GET` handler. `calls` is the trace of resolver calls the handler makes, in order.
   */
  method Get(domain: Option<string>, dns: Resolver) returns (resp: HttpResponse, ghost calls: seq<Call>)
    ensures MissingDomain(domain) ==> resp == HttpResponse(400, ErrorBody(DomainRequired)) && calls == []
    ensures !MissingDomain(domain) ==>
      && resp.status == 200
      && resp.body == ResultsBody(Aggregate(dns, domain.value, RecordTypes))
      && resp.body.results.keys == RecordTypes
      && (forall t :: t in resp.body.results.entries <==> t in RecordTypes)
      && (forall t :: t in RecordTypes && ResolveDns(dns, domain.value, t).Answer? ==>
            resp.body.results.entries[t] == ResolveDns(dns, domain.value, t).value)
      && (forall t :: t in RecordTypes && ResolveDns(dns, domain.value, t).Threw? ==>
            resp.body.results.entries[t] == Text(NoRecordFound))
    ensures !MissingDomain(domain) ==>
      && |calls| == |RecordTypes|
      && (forall i :: 0 <= i < |calls| ==> calls[i] == Dispatch(domain.value, RecordTypes[i]).value)
      && (forall i :: 0 <= i < |calls| ==>
           calls[i].domain == domain.value && calls[i].RecordType() == RecordTypes[i])
  {
    if MissingDomain(domain) {
      return HttpResponse(400, ErrorBody(DomainRequired)), [];
    }
    var d := domain.value;
    var results := EmptyDict;
    calls := [];
    for i := 0 to |RecordTypes|
      invariant results == Aggregate(dns, d, RecordTypes[..i])
      invariant calls == CallsFor(d, RecordTypes[..i])
    {
      var recordType := RecordTypes[i];
      var call := Dispatch(d, recordType);
      CallsForStep(d, RecordTypes, i);
      calls := calls + [call.value];
      var outcome := Invoke(dns, call.value);
      assert outcome == ResolveDns(dns, d, recordType);
      var stored := if outcome.Answer? then outcome.value else Text(NoRecordFound);
      AggregateStep(dns, d, RecordTypes, i);
      results := Put(results, recordType, stored);
    }
    assert RecordTypes[..|RecordTypes|] == RecordTypes;
    RouteResults(dns, d);
    CallsForTypes(d, RecordTypes);
    resp := HttpResponse(200, ResultsBody(results));
  }

  /** A stored value as `NextResponse.json` writes it. */
  function Encode(v: RawValue): (j: Json)
    ensures v.Names? ==> j.JArr? && j.items == Strs(v.names)
    ensures v.MxList? ==> (j.JArr? && |j.items| == |v.exchanges| &&
      forall i :: 0 <= i < |v.exchanges| ==>
        j.items[i].JObj? && j.items[i].fields.Keys == {"exchange", "priority"} &&
        j.items[i].fields["exchange"] == JStr(v.exchanges[i].exchange) &&
        j.items[i].fields["priority"] == JNum(v.exchanges[i].priority))
    ensures v.TxtList? ==> (j.JArr? && |j.items| == |v.chunks| &&
      forall i :: 0 <= i < |v.chunks| ==> j.items[i] == JArr(Strs(v.chunks[i])))
    ensures v.Soa? ==> (j.JObj? &&
      j.fields.Keys == {"nsname", "hostmaster", "serial", "refresh", "retry", "expire", "minttl"} &&
      j.fields["nsname"] == JStr(v.soa.nsname) && j.fields["hostmaster"] == JStr(v.soa.hostmaster))
    ensures v.Text? ==> j == JStr(v.text)
  {
    match v
    case Names(ns) => JArr(Strs(ns))
    case MxList(mx) => JArr(MxItems(mx))
    case TxtList(cs) => JArr(Chunks(cs))
    case Soa(s) => JObj(map[
        "nsname" := JStr(s.nsname), "hostmaster" := JStr(s.hostmaster),
        "serial" := JNum(s.serial), "refresh" := JNum(s.refresh), "retry" := JNum(s.retry),
        "expire" := JNum(s.expire), "minttl" := JNum(s.minttl)])
    case Text(s) => JStr(s)
  }

  function MxItem(m: MxRecord): Json {
    JObj(map["exchange" := JStr(m.exchange), "priority" := JNum(m.priority)])
  }

  function MxItems(mx: seq<MxRecord>): (r: seq<Json>)
    ensures |r| == |mx|
    ensures forall i :: 0 <= i < |mx| ==> r[i] == MxItem(mx[i])
  {
    if mx == [] then [] else [MxItem(mx[0])] + MxItems(mx[1..])
  }

  function Chunks(cs: seq<seq<string>>): (r: seq<Json>)
    ensures |r| == |cs|
    ensures forall i :: 0 <= i < |cs| ==> r[i] == JArr(Strs(cs[i]))
  {
    if cs == [] then [] else [JArr(Strs(cs[0]))] + Chunks(cs[1..])
  }

  /** A response body as JSON; the dictionary's key order is not kept in a JSON object here. */
  function Serialize(b: Body): (j: Json)
    ensures j.JObj?
    ensures b.ErrorBody? ==> j.fields.Keys == {"error"} && j.fields["error"] == JStr(b.error)
    ensures b.ResultsBody? ==> (j.fields.Keys == b.results.entries.Keys &&
      forall k :: k in b.results.entries ==> j.fields[k] == Encode(b.results.entries[k]))
  {
    match b
    case ErrorBody(e) => JObj(map["error" := JStr(e)])
    case ResultsBody(d) => JObj(map k | k in d.entries :: Encode(d.entries[k]))
  }
}
