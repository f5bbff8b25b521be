/** The JSON values the lookup route sends and the lookup page parses back. */
module Json {

  /** A JSON value. Numbers are integers: every number the route sends (MX priority, SOA counters) is one. */
  datatype Json =
    | JNull
    | JBool(b: bool)
    | JNum(n: int)
    | JStr(s: string)
    | JArr(items: seq<Json>)
    | JObj(fields: map<string, Json>)

  /** A list of strings as a JSON array's items. */
  function Strs(ss: seq<string>): (r: seq<Json>)
    ensures |r| == |ss|
    ensures forall i :: 0 <= i < |ss| ==> r[i] == JStr(ss[i])
  {
    if ss == [] then [] else [JStr(ss[0])] + Strs(ss[1..])
  }

  lemma {:induction false} StrsAppend(a: seq<string>, b: seq<string>)
    ensures Strs(a + b) == Strs(a) + Strs(b)
  {
    assert |Strs(a + b)| == |Strs(a) + Strs(b)|;
    forall i | 0 <= i < |a + b|
      ensures Strs(a + b)[i] == (Strs(a) + Strs(b))[i]
    {
      if i < |a| {
        assert (a + b)[i] == a[i];
      } else {
        assert (a + b)[i] == b[i - |a|];
      }
    }
  }
}
