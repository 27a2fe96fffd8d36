/**
 * The query dictionary `run` builds from the search parameters, and the
 * credential `_pub_search` adds to that same dictionary before sending it.
 */
module Query {
  import opened Wrappers
  import opened Schema

  /** A value held in the query dictionary: a `str`, an `int`, or `None`. */
  datatype Value = VStr(s: string) | VInt(i: int) | VNone

  /** Python truthiness of a value: non-empty string, non-zero integer. */
  predicate Truthy(v: Value) {
    match v
    case VStr(s) => s != ""
    case VInt(i) => i != 0
    case VNone => false
  }

  /**
   * `v or ""`: truthiness is kept, None never survives, a truthy value is
   * untouched and the only falsy value left is the empty string.
   */
  function OrEmpty(v: Value): (r: Value)
    ensures Truthy(r) <==> Truthy(v)
    ensures r != VNone
    ensures Truthy(r) ==> r == v
    ensures !Truthy(r) ==> r == VStr("")
  {
    if Truthy(v) then v else VStr("")
  }

  /** `params.model_dump()`: every field, by name. */
  function Dump(p: SimpleParams): map<string, Value>
  {
    map[
      "searchterm" := VStr(p.searchterm),
      "searchtype" := VStr(p.searchtype.Code()),
      "page" := VInt(p.page),
      "pageSize" := VInt(p.pageSize)
    ]
  }

  /** `exclude_none=True`: the entries whose value is not None. */
  function ExcludeNone(m: map<string, Value>): map<string, Value>
  {
    map k | k in m && m[k] != VNone :: m[k]
  }

  /** `{k: (v or "") for k, v in ...}`. */
  function FalsyAsEmpty(m: map<string, Value>): map<string, Value>
  {
    map k | k in m :: OrEmpty(m[k])
  }

  /** `{k: v for k, v in ... if v}`: the truthy entries only. */
  function Pruned(m: map<string, Value>): map<string, Value>
  {
    map k | k in m && Truthy(m[k]) :: m[k]
  }

  /** `a` is a sub-dictionary of `b`: every entry of `a` is in `b` with the same value. */
  predicate SubMap(a: map<string, Value>, b: map<string, Value>) {
    forall k :: k in a ==> k in b && b[k] == a[k]
  }

  /** Every value of the dictionary is truthy. */
  predicate AllTruthy(m: map<string, Value>) {
    forall k :: k in m ==> Truthy(m[k])
  }

  /**
   * The dump loses nothing: it holds the four fields, and the schema's own
   * constructor rebuilds the parameters from its values.
   */
  lemma DumpIsLossless(p: SimpleParams)
    ensures Dump(p).Keys == {"searchterm", "searchtype", "page", "pageSize"}
    ensures var d := Dump(p);
      d["searchterm"].VStr? && d["searchtype"].VStr? && d["page"].VInt? && d["pageSize"].VInt? &&
      NewSimpleParams(d["searchterm"].s, Some(d["searchtype"].s), Some(d["page"].i), Some(d["pageSize"].i)) == Ok(p)
  {
    SearchTypeCodeRoundTrip(p.searchtype);
  }

  /**
   * `exclude_none=True` yields a sub-dictionary free of None, and leaves a
   * dictionary that holds no None as it is.
   */
  lemma ExcludeNoneKeepsNoneFree(m: map<string, Value>)
    ensures SubMap(ExcludeNone(m), m)
    ensures VNone !in ExcludeNone(m).Values
    ensures VNone !in m.Values ==> ExcludeNone(m) == m
  {
    if VNone !in m.Values {
      forall k | k in m ensures m[k] != VNone {
        assert m[k] in m.Values;
      }
    }
  }

  /** No field of the simple parameters is optional, so the logged dump is the full dump. */
  lemma LoggedDumpIsFullDump(p: SimpleParams)
    ensures ExcludeNone(Dump(p)) == Dump(p)
  {
    ExcludeNoneKeepsNoneFree(Dump(p));
  }

  /**
   * `Pruned(m)` is the largest sub-dictionary of `m` whose values are all
   * truthy: it is one, and it contains every other one.
   */
  lemma PrunedIsLargestTruthySubMap(m: map<string, Value>, other: map<string, Value>)
    ensures SubMap(Pruned(m), m) && AllTruthy(Pruned(m))
    ensures SubMap(other, m) && AllTruthy(other) ==> SubMap(other, Pruned(m))
  {
  }

  /**
   * Replacing falsy values by "" keeps every key, removes None, and does not
   * change which entries are truthy: pruning afterwards gives what pruning
   * the original gives.
   */
  lemma FalsyAsEmptyKeepsTruthyPart(m: map<string, Value>)
    ensures FalsyAsEmpty(m).Keys == m.Keys
    ensures VNone !in FalsyAsEmpty(m).Values
    ensures Pruned(FalsyAsEmpty(m)) == Pruned(m)
  {
    var f := FalsyAsEmpty(m);
    assert f.Keys == m.Keys;
    assert Pruned(f).Keys == Pruned(m).Keys;
  }

  /** The fixed operation and format markers. */
  const Markers: map<string, Value> := map["op" := VStr("PublicationSearch"), "format" := VStr("json")]

  /** The dictionary sent to the API before the credential is added: markers, overridden by the parameters. */
  function OutboundQuery(p: SimpleParams): map<string, Value> {
    Markers + FalsyAsEmpty(Dump(p))
  }

  /** The credential as it is put in the dictionary: `os.environ.get("BHL_API_KEY")`, possibly None. */
  function TokenValue(token: Option<string>): Value {
    if token.Some? then VStr(token.value) else VNone
  }

  /** The dictionary as sent, after `_pub_search` has added the credential. */
  function SentQuery(p: SimpleParams, token: Option<string>): map<string, Value> {
    OutboundQuery(p) + map["apikey" := TokenValue(token)]
  }

  /** `d |= ({markers} | d)` leaves d's own entries and adds the markers it lacks. */
  lemma {:induction false} DoubleMergeIsOverlay(d: map<string, Value>, markers: map<string, Value>)
    ensures d + (markers + d) == markers + d
  {
    var lhs, rhs := d + (markers + d), markers + d;
    assert lhs.Keys == rhs.Keys;
    forall k | k in lhs ensures lhs[k] == rhs[k] {
      if k in d {
        assert lhs[k] == d[k] && rhs[k] == d[k];
      }
    }
  }

  /**
   * Every parameter key is kept, a falsy value becomes "", a truthy one is
   * unchanged, and the two markers are added.
   */
  lemma OutboundQueryContents(p: SimpleParams)
    ensures OutboundQuery(p).Keys == {"searchterm", "searchtype", "page", "pageSize", "op", "format"}
    ensures forall k :: k in Dump(p) ==> OutboundQuery(p)[k] == OrEmpty(Dump(p)[k])
    ensures forall k :: k in Dump(p) && Truthy(Dump(p)[k]) ==> OutboundQuery(p)[k] == Dump(p)[k]
    ensures OutboundQuery(p)["op"] == VStr("PublicationSearch") && OutboundQuery(p)["format"] == VStr("json")
    ensures OutboundQuery(p)["searchtype"] == VStr(p.searchtype.Code())
  {
  }

  /** Page 0 is sent as an empty string, and is missing from the logged copy. */
  lemma ZeroPageSentAsEmpty(p: SimpleParams, token: Option<string>)
    requires p.page == 0
    ensures SentQuery(p, token)["page"] == VStr("")
    ensures "page" !in Pruned(OutboundQuery(p))
  {
  }

  /**
   * The logged copy holds exactly the truthy entries (the search type and
   * the markers always among them); the dictionary that is sent still holds every entry, empty ones included.
   */
  lemma LoggedCopyDropsOnlyFalsy(p: SimpleParams, token: Option<string>)
    ensures forall k :: k in Pruned(OutboundQuery(p)) <==> k in OutboundQuery(p) && Truthy(OutboundQuery(p)[k])
    ensures forall k :: k in OutboundQuery(p) ==> k in SentQuery(p, token) && SentQuery(p, token)[k] == OutboundQuery(p)[k]
    ensures "searchtype" in Pruned(OutboundQuery(p)) && "op" in Pruned(OutboundQuery(p)) && "format" in Pruned(OutboundQuery(p))
  {
    assert Truthy(OutboundQuery(p)["searchtype"]);
  }

  /**
   * `_pub_search` adds `apikey` (possibly None) to the dictionary it was
   * given and changes nothing else; the logged copy, made before, lacks it.
   */
  lemma SentQueryAddsKey(p: SimpleParams, token: Option<string>)
    ensures "apikey" in SentQuery(p, token) && SentQuery(p, token)["apikey"] == TokenValue(token)
    ensures SentQuery(p, token).Keys == OutboundQuery(p).Keys + {"apikey"}
    ensures "apikey" !in OutboundQuery(p) && "apikey" !in Pruned(OutboundQuery(p))
  {
    assert "apikey" !in OutboundQuery(p);
  }

  /** A Python dict that is updated in place; every holder of the reference sees the update. */
  class QueryMap {
    var entries: map<string, Value>

    /** `{k: (v or "") for k, v in dump.items()}`. */
    constructor FromDump(dump: map<string, Value>)
      ensures entries == FalsyAsEmpty(dump)
    {
      entries := FalsyAsEmpty(dump);
    }

    /** `self |= other`: the entries of `other` win. */
    method Update(other: map<string, Value>)
      modifies this
      ensures entries == old(entries) + other
    {
      entries := entries + other;
    }
  }
}
