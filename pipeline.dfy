/**
 * The page's normalisation applied to what the route sends for a domain: which resolver failures the page
 * survives, and what records it then holds.
 */
module Pipeline {
  import opened Wrappers
  import opened Json
  import R = DnsRoute
  import L = DnsLookup

  /** The JSON body the route sends for a present domain. */
  function RouteJson(dns: R.Resolver, domain: string): Json {
    R.Serialize(R.ResultsBody(R.Aggregate(dns, domain, R.RecordTypes)))
  }

  /** The response `R.Get` returns for a present domain. */
  function RouteReply(dns: R.Resolver, domain: string): R.HttpResponse {
    R.HttpResponse(200, R.ResultsBody(R.Aggregate(dns, domain, R.RecordTypes)))
  }

  /** The route's response as the page's fetch receives it. */
  function Deliver(resp: R.HttpResponse): L.FetchOutcome {
    L.Received(resp.status, L.Parsed(R.Serialize(resp.body)))
  }

  /** A string-list query's entry as JSON. */
  function NamesJson(o: R.Outcome<seq<string>>): Json {
    match o
    case Answer(ns) => JArr(Strs(ns))
    case Threw(_) => JStr(R.NoRecordFound)
  }

  function MxJson(o: R.Outcome<seq<R.MxRecord>>): Json {
    match o
    case Answer(mx) => JArr(R.MxItems(mx))
    case Threw(_) => JStr(R.NoRecordFound)
  }

  function TxtJson(o: R.Outcome<seq<seq<string>>>): Json {
    match o
    case Answer(cs) => JArr(R.Chunks(cs))
    case Threw(_) => JStr(R.NoRecordFound)
  }

  function SoaJson(o: R.Outcome<R.SoaRecord>): Json {
    match o
    case Answer(s) => R.Encode(R.Soa(s))
    case Threw(_) => JStr(R.NoRecordFound)
  }

  /** Each type's entry in the body is its own query's stored value, encoded. */
  lemma RouteEntry(dns: R.Resolver, domain: string, t: string)
    requires t in R.RecordTypes
    ensures L.Prop(RouteJson(dns, domain), t) == Some(R.Encode(R.Stored(R.ResolveDns(dns, domain, t))))
  {
    R.RecordTypesDistinct();
    R.AggregateEntries(dns, domain, R.RecordTypes);
  }

  lemma NamesEntry(dns: R.Resolver, domain: string, t: string)
    requires t in R.GenericTypes
    ensures L.Prop(RouteJson(dns, domain), t) == Some(NamesJson(dns.resolve(domain, t)))
  {
    RouteEntry(dns, domain, t);
  }

  lemma MxEntry(dns: R.Resolver, domain: string)
    ensures L.Prop(RouteJson(dns, domain), "MX") == Some(MxJson(dns.resolveMx(domain)))
  {
    assert R.ResolveDns(dns, domain, "MX") == R.AsMx(dns.resolveMx(domain));
    RouteEntry(dns, domain, "MX");
  }

  lemma TxtEntry(dns: R.Resolver, domain: string)
    ensures L.Prop(RouteJson(dns, domain), "TXT") == Some(TxtJson(dns.resolveTxt(domain)))
  {
    assert R.ResolveDns(dns, domain, "TXT") == R.AsTxt(dns.resolveTxt(domain));
    RouteEntry(dns, domain, "TXT");
  }

  lemma SoaEntry(dns: R.Resolver, domain: string)
    ensures L.Prop(RouteJson(dns, domain), "SOA") == Some(SoaJson(dns.resolveSoa(domain)))
  {
    RouteEntry(dns, domain, "SOA");
  }

  /** The body holds, under every key the page reads, the encoding of that key's own query. */
  predicate Carries(j: Json, a: R.Outcome<seq<string>>, cname: R.Outcome<seq<string>>,
                    mx: R.Outcome<seq<R.MxRecord>>, ns: R.Outcome<seq<string>>,
                    soa: R.Outcome<R.SoaRecord>, txt: R.Outcome<seq<seq<string>>>)
  {
    && j.JObj?
    && L.Prop(j, "A") == Some(NamesJson(a))
    && L.Prop(j, "CNAME") == Some(NamesJson(cname))
    && L.Prop(j, "MX") == Some(MxJson(mx))
    && L.Prop(j, "NS") == Some(NamesJson(ns))
    && L.Prop(j, "SOA") == Some(SoaJson(soa))
    && L.Prop(j, "TXT") == Some(TxtJson(txt))
  }

  lemma RouteCarries(dns: R.Resolver, domain: string)
    ensures Carries(RouteJson(dns, domain), dns.resolve(domain, "A"), dns.resolve(domain, "CNAME"),
                    dns.resolveMx(domain), dns.resolve(domain, "NS"), dns.resolveSoa(domain), dns.resolveTxt(domain))
  {
    NamesEntry(dns, domain, "A");
    NamesEntry(dns, domain, "CNAME");
    NamesEntry(dns, domain, "NS");
    MxEntry(dns, domain);
    TxtEntry(dns, domain);
    SoaEntry(dns, domain);
  }

  /** Formatting any body that carries those entries succeeds exactly when A, MX, NS and TXT answered. */
  lemma {:induction false} FormatCarried(query: string, j: Json, a: R.Outcome<seq<string>>,
                                         cname: R.Outcome<seq<string>>, mx: R.Outcome<seq<R.MxRecord>>,
                                         ns: R.Outcome<seq<string>>, soa: R.Outcome<R.SoaRecord>,
                                         txt: R.Outcome<seq<seq<string>>>)
    requires Carries(j, a, cname, mx, ns, soa, txt)
    ensures L.Format(query, j).Success? <==> a.Answer? && mx.Answer? && ns.Answer? && txt.Answer?
    ensures a.Threw? ==> L.Format(query, j) == Failure(L.NotAFunction("rawData.A.map"))
  {
    if a.Threw? {
      assert "rawData.A" + "." + "map" == "rawData.A.map";
    }
    if mx.Answer? {
      var items := R.MxItems(mx.value);
      assert forall i :: 0 <= i < |items| ==> items[i].JObj?;
      assert JNull !in items;
    }
  }

  /** The page formats the route's body exactly when the A, MX, NS and TXT queries all answered: the sentinel
      string in any of those four entries makes `.map`/`.flat` throw, while CNAME and SOA absorb it. A failed A
      query gives the first TypeError. */
  lemma FormatSucceedsIff(dns: R.Resolver, domain: string, query: string)
    ensures L.Format(query, RouteJson(dns, domain)).Success? <==>
      && dns.resolve(domain, "A").Answer?
      && dns.resolveMx(domain).Answer?
      && dns.resolve(domain, "NS").Answer?
      && dns.resolveTxt(domain).Answer?
    ensures dns.resolve(domain, "A").Threw? ==>
      L.Format(query, RouteJson(dns, domain)) == Failure(L.NotAFunction("rawData.A.map"))
  {
    RouteCarries(dns, domain);
    FormatCarried(query, RouteJson(dns, domain), dns.resolve(domain, "A"), dns.resolve(domain, "CNAME"),
                  dns.resolveMx(domain), dns.resolve(domain, "NS"), dns.resolveSoa(domain), dns.resolveTxt(domain));
  }

  /** The records formatted from a body that carries answered A, MX, NS and TXT entries. */
  predicate Reshaped(r: L.Records, ips: seq<string>, cname: R.Outcome<seq<string>>, mx: seq<R.MxRecord>,
                     ns: seq<string>, soa: R.Outcome<R.SoaRecord>, chunks: seq<seq<string>>)
  {
    && |r.a| == |ips|
    && (forall i :: 0 <= i < |ips| ==> r.a[i] == L.NoFields.(address := Some(JStr(ips[i]))))
    && |r.mx| == |mx|
    && (forall i :: 0 <= i < |mx| ==>
          r.mx[i] == L.NoFields.(exchange := Some(JStr(mx[i].exchange)), priority := Some(JNum(mx[i].priority))))
    && |r.ns| == |ns|
    && (forall i :: 0 <= i < |ns| ==> r.ns[i] == L.NoFields.(nameserver := Some(JStr(ns[i]))))
    && r.txt == Strs(L.Concat(chunks))
    && |r.txt| == L.TotalLength(chunks)
    && L.Flat(r.txt) == r.txt
    && r.cname == (match cname
         case Answer(names) => if names == [] then [] else [L.NoFields.(address := Some(JArr(Strs(names))))]
         case Threw(_) => [L.NoFields.(address := Some(JStr(R.NoRecordFound)))])
    && r.soa == (match soa
         case Answer(s) => [L.NoFields.(nameserver := Some(JStr(s.nsname)), hostmaster := Some(JStr(s.hostmaster)))]
         case Threw(_) => [L.NoFields])
  }

  lemma {:induction false} FormattedCarried(query: string, j: Json, ips: seq<string>,
                                            cname: R.Outcome<seq<string>>, mx: seq<R.MxRecord>,
                                            ns: seq<string>, soa: R.Outcome<R.SoaRecord>,
                                            chunks: seq<seq<string>>)
    requires Carries(j, R.Answer(ips), cname, R.Answer(mx), R.Answer(ns), soa, R.Answer(chunks))
    ensures L.Format(query, j).Success?
    ensures L.Format(query, j).value.query == query
    ensures Reshaped(L.Format(query, j).value.records, ips, cname, mx, ns, soa, chunks)
  {
    FormatCarried(query, j, R.Answer(ips), cname, R.Answer(mx), R.Answer(ns), soa, R.Answer(chunks));
    L.FlatOfStringArrays(R.Chunks(chunks), chunks);
    L.FlatOfStrings(L.Concat(chunks));
    var items := R.MxItems(mx);
    forall i | 0 <= i < |mx|
      ensures L.MxRecordOf(items[i]) ==
        L.NoFields.(exchange := Some(JStr(mx[i].exchange)), priority := Some(JNum(mx[i].priority)))
    {
      assert items[i] == R.MxItem(mx[i]);
    }
  }

  /** When those four queries answered, the formatted records are the answers reshaped: one A, MX or NS record
      per answer in order, the TXT segments concatenated (already flat), CNAME as one record holding the whole
      list or the sentinel, SOA as one record with only nameserver and hostmaster, or with no fields. */
  lemma FormattedRecords(dns: R.Resolver, domain: string, query: string)
    requires dns.resolve(domain, "A").Answer? && dns.resolveMx(domain).Answer?
    requires dns.resolve(domain, "NS").Answer? && dns.resolveTxt(domain).Answer?
    ensures L.Format(query, RouteJson(dns, domain)).Success?
    ensures L.Format(query, RouteJson(dns, domain)).value.query == query
    ensures Reshaped(L.Format(query, RouteJson(dns, domain)).value.records,
                     dns.resolve(domain, "A").value, dns.resolve(domain, "CNAME"), dns.resolveMx(domain).value,
                     dns.resolve(domain, "NS").value, dns.resolveSoa(domain), dns.resolveTxt(domain).value)
  {
    RouteCarries(dns, domain);
    FormattedCarried(query, RouteJson(dns, domain), dns.resolve(domain, "A").value, dns.resolve(domain, "CNAME"),
                     dns.resolveMx(domain).value, dns.resolve(domain, "NS").value, dns.resolveSoa(domain),
                     dns.resolveTxt(domain).value);
  }

  /** A submit against the route's reply for a present domain loads data exactly when the A, MX, NS and TXT
      queries answered; a failed A query puts the first TypeError's message ("rawData.A.map is not a
      function") in the error slot. */
  lemma SubmitAgainstRoute(dns: R.Resolver, domain: string, query: string)
    ensures L.Settle(query, Deliver(RouteReply(dns, domain))).Loaded? <==>
      && dns.resolve(domain, "A").Answer?
      && dns.resolveMx(domain).Answer?
      && dns.resolve(domain, "NS").Answer?
      && dns.resolveTxt(domain).Answer?
    ensures dns.resolve(domain, "A").Threw? ==>
      L.Settle(query, Deliver(RouteReply(dns, domain))) == L.Failed(L.Message(L.NotAFunction("rawData.A.map")))
  {
    assert Deliver(RouteReply(dns, domain)) == L.Received(200, L.Parsed(RouteJson(dns, domain)));
    RouteCarries(dns, domain);
    SettleCarried(query, RouteJson(dns, domain), dns.resolve(domain, "A"), dns.resolve(domain, "CNAME"),
                  dns.resolveMx(domain), dns.resolve(domain, "NS"), dns.resolveSoa(domain), dns.resolveTxt(domain));
  }

  lemma SettleCarried(query: string, j: Json, a: R.Outcome<seq<string>>,
                      cname: R.Outcome<seq<string>>, mx: R.Outcome<seq<R.MxRecord>>,
                      ns: R.Outcome<seq<string>>, soa: R.Outcome<R.SoaRecord>,
                      txt: R.Outcome<seq<seq<string>>>)
    requires Carries(j, a, cname, mx, ns, soa, txt)
    ensures L.Settle(query, L.Received(200, L.Parsed(j))).Loaded? <==>
      a.Answer? && mx.Answer? && ns.Answer? && txt.Answer?
    ensures a.Threw? ==>
      L.Settle(query, L.Received(200, L.Parsed(j))) == L.Failed(L.Message(L.NotAFunction("rawData.A.map")))
  {
    FormatCarried(query, j, a, cname, mx, ns, soa, txt);
    SettleParsed(query, j);
  }

  /** A 200 reply whose body parses settles as its formatting does. */
  lemma SettleParsed(query: string, j: Json)
    ensures L.Settle(query, L.Received(200, L.Parsed(j))).Loaded? <==> L.Format(query, j).Success?
    ensures L.Format(query, j).Failure? ==>
      L.Settle(query, L.Received(200, L.Parsed(j))) == L.Failed(L.Message(L.Format(query, j).error))
  {
  }

  /** The route's reply to a missing domain puts the fixed fetch error in the page's error slot. */
  lemma MissingDomainShowsFetchError(query: string)
    ensures L.Settle(query, Deliver(R.HttpResponse(400, R.ErrorBody(R.DomainRequired)))) == L.Failed(L.FetchFailed)
  {
  }
}
