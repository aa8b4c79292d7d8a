/** `fetchWithCache` of the client: a module-level `Map` from request keys
    to response data. A key seen before is answered from the map without a
    request; otherwise the request is made and its data stored. The request
    itself is not modelled: its outcome is an input, consulted only on a
    miss. */
module ApiCache {
  import opened Wrappers
  import opened JsString

  /** A request parameter value, as `JSON.stringify` renders it. */
  datatype ParamValue = Text(text: string) | Number(n: int) | Flag(b: bool)

  /** The `params` object, its own properties in the order
      `JSON.stringify` lists them: integer-like keys first, in ascending
      order, then the others in insertion order. */
  type Params = seq<(string, ParamValue)>

  // ---------------------------------------------------------------------
  // JSON.stringify

  function HexDigit(d: nat): (c: char)
    requires d < 16
  {
    if d < 10 then DigitChar(d) else ('a' as int + d - 10) as char
  }

  /** One character of a JSON string literal. */
  function EscapeChar(c: char): (r: string)
    ensures r != []
  {
    if c == '"' then "\\\""
    else if c == '\\' then "\\\\"
    else if c == '\U{8}' then "\\b"
    else if c == '\U{C}' then "\\f"
    else if c == '\n' then "\\n"
    else if c == '\r' then "\\r"
    else if c == '\t' then "\\t"
    else if c < ' ' then "\\u00" + [HexDigit(c as int / 16), HexDigit(c as int % 16)]
    else [c]
  }

  function Escape(s: string): (r: string)
  {
    if s == [] then [] else EscapeChar(s[0]) + Escape(s[1..])
  }

  function Quoted(s: string): string
  {
    "\"" + Escape(s) + "\""
  }

  function IntText(n: int): string
  {
    if n < 0 then "-" + Decimal(-n) else Decimal(n)
  }

  function ValueText(v: ParamValue): string
  {
    match v
    case Text(t) => Quoted(t)
    case Number(n) => IntText(n)
    case Flag(b) => if b then "true" else "false"
  }

  function Members(params: Params): string
  {
    if params == [] then []
    else
      var member := Quoted(params[0].0) + ":" + ValueText(params[0].1);
      if |params| == 1 then member else member + "," + Members(params[1..])
  }

  /** `JSON.stringify(params)`. */
  function Stringify(params: Params): (json: string)
    ensures |json| >= 2 && json[0] == '{' && json[|json| - 1] == '}'
  {
    "{" + Members(params) + "}"
  }

  /** `${url}${JSON.stringify(params)}`, where omitted parameters default
      to `{}`. */
  function CacheKey(url: string, params: Option<Params>): (key: string)
  {
    url + Stringify(if params.Some? then params.value else [])
  }

  // ---------------------------------------------------------------------
  // Reading escapes back

  function HexValue(c: char): (d: int)
  {
    if '0' <= c <= '9' then c as int - '0' as int
    else if 'a' <= c <= 'f' then c as int - 'a' as int + 10
    else -1
  }

  /** Undoes `Escape`; `None` on text `Escape` does not produce. */
  function Unescape(s: string): (r: Option<string>)
    decreases |s|
  {
    if s == [] then Some([])
    else if s[0] != '\\' then
      match Unescape(s[1..])
      case None => None
      case Some(t) => Some([s[0]] + t)
    else if |s| >= 2 && s[1] in "\"\\bfnrt" then
      var c := match s[1]
        case '"' => '"' case '\\' => '\\' case 'b' => '\U{8}' case 'f' => '\U{C}'
        case 'n' => '\n' case 'r' => '\r' case _ => '\t';
      match Unescape(s[2..])
      case None => None
      case Some(t) => Some([c] + t)
    else if |s| >= 6 && s[1] == 'u' && s[2] == '0' && s[3] == '0' && 0 <= HexValue(s[4]) < 2 && 0 <= HexValue(s[5]) then
      var c := (HexValue(s[4]) * 16 + HexValue(s[5])) as char;
      match Unescape(s[6..])
      case None => None
      case Some(t) => Some([c] + t)
    else None
  }

  lemma HexRoundTrip(d: nat)
    requires d < 16
    ensures HexValue(HexDigit(d)) == d
  {
  }

  /** Each escape is read back as its character, whatever follows it. */
  lemma EscapeCharRoundTrip(c: char, rest: string)
    ensures Unescape(EscapeChar(c) + rest) == match Unescape(rest)
      case None => None
      case Some(t) => Some([c] + t)
  {
    var e := EscapeChar(c);
    var s := e + rest;
    if c < ' ' && c !in "\U{8}\U{C}\n\r\t" {
      HexRoundTrip(c as int / 16);
      HexRoundTrip(c as int % 16);
      assert s[6..] == rest;
    } else if |e| == 2 {
      assert s[2..] == rest;
    } else {
      assert s[1..] == rest;
    }
  }

  /** Escaping loses nothing: the escaped text reads back as the original. */
  lemma {:induction false} EscapeRoundTrip(s: string)
    ensures Unescape(Escape(s)) == Some(s)
  {
    if s != [] {
      EscapeRoundTrip(s[1..]);
      EscapeCharRoundTrip(s[0], Escape(s[1..]));
      assert [s[0]] + s[1..] == s;
    }
  }

  /** The escaped text has no bare quote, so a quoted string ends at its
      closing quote. */
  lemma {:induction false} EscapeNoBareQuote(s: string)
    ensures forall i :: 0 <= i < |Escape(s)| && Escape(s)[i] == '"' ==> i > 0 && Escape(s)[i - 1] == '\\'
  {
    if s != [] {
      EscapeNoBareQuote(s[1..]);
      var e := EscapeChar(s[0]);
      var r := Escape(s[1..]);
      forall i | 0 <= i < |e + r| && (e + r)[i] == '"' ensures i > 0 && (e + r)[i - 1] == '\\' {
        if i >= |e| {
          assert (e + r)[i] == r[i - |e|];
          if i - |e| > 0 {
            assert (e + r)[i - 1] == r[i - 1 - |e|];
          } else {
            assert false;
          }
        }
      }
    }
  }

  /** Omitting the parameters and passing `{}` give the same key, and every
      key starts with its URL. */
  lemma CacheKeyProperties(url: string, params: Option<Params>)
    ensures CacheKey(url, None) == CacheKey(url, Some([])) == url + "{}"
    ensures StartsWith(CacheKey(url, params), url)
    ensures CacheKey(url, params)[|CacheKey(url, params)| - 1] == '}'
  {
    var key := CacheKey(url, params);
    assert key[..|url|] == url;
  }

  // ---------------------------------------------------------------------
  // The cache

  /** What one call leaves behind: the new map, the answer (the data, or
      the error the failed request threw) and whether a request was made. */
  datatype Served<D> = Served(entries: map<string, D>, answer: Result<D, string>, fetched: bool)

  /** One call for `key`, where `outcome` is what the request would yield. */
  function Serve<D>(entries: map<string, D>, key: string, outcome: Result<D, string>): (s: Served<D>)
    ensures forall k :: k in entries ==> k in s.entries && s.entries[k] == entries[k]
    ensures forall k :: k in s.entries ==> k in entries || k == key
    ensures s.fetched <==> key !in entries
    ensures key in s.entries <==> key in entries || outcome.Success?
  {
    if key in entries then Served(entries, Success(entries[key]), false)
    else if outcome.Success? then Served(entries[key := outcome.value], outcome, true)
    else Served(entries, outcome, true)
  }

  /** What the completion of one request does to the map (lines 17-23,
      reached after a miss and after the `await`): successful data is
      stored under its key, replacing whatever is there by then; a failure
      leaves the map. */
  function Store<D>(entries: map<string, D>, key: string, outcome: Result<D, string>): map<string, D>
  {
    if outcome.Success? then entries[key := outcome.value] else entries
  }

  class ResponseCache<D> {
    var entries: map<string, D>

    /** The module-level `new Map()`. */
    constructor()
      ensures entries == map[]
    {
      entries := map[];
    }

    /** Lines 10-14, before the `await`: the key, and the stored data when
        the key is present. The map is only read. */
    method Lookup(url: string, params: Option<Params>) returns (key: string, hit: Option<D>)
      ensures key == CacheKey(url, params)
      ensures hit.Some? <==> key in entries
      ensures hit.Some? ==> hit.value == entries[key]
    {
      key := CacheKey(url, params);
      if key in entries {
        hit := Some(entries[key]);
      } else {
        hit := None;
      }
    }

    /** Lines 17-23, after the `await` of a call that missed: the request's
        outcome is stored when it succeeded and is the answer either way. */
    method Complete(key: string, outcome: Result<D, string>) returns (answer: Result<D, string>)
      modifies this
      ensures entries == Store(old(entries), key, outcome)
      ensures answer == outcome
    {
      entries := Store(entries, key, outcome);
      answer := outcome;
    }

    /** `fetchWithCache(url, params)` when no other call runs during its
        `await`: the lookup, then on a miss the completion. */
    method FetchWithCache(url: string, params: Option<Params>, outcome: Result<D, string>)
      returns (answer: Result<D, string>, fetched: bool)
      modifies this
      ensures var key := CacheKey(url, params);
        && (key in old(entries) ==> answer == Success(old(entries)[key]) && !fetched && entries == old(entries))
        && (key !in old(entries) ==> fetched && answer == outcome)
        && (key !in old(entries) && outcome.Success? ==> entries == old(entries)[key := outcome.value])
        && (key !in old(entries) && outcome.Failure? ==> entries == old(entries))
      ensures var s := Serve(old(entries), CacheKey(url, params), outcome);
        entries == s.entries && answer == s.answer && fetched == s.fetched
    {
      var key, hit := Lookup(url, params);
      if hit.Some? {
        return Success(hit.value), false;
      }
      fetched := true;
      answer := Complete(key, outcome);
    }
  }

  // ---------------------------------------------------------------------
  // Calls that overlap

  /** The map after requests complete in the order given, each a key and
      its outcome. Lookups only read the map, so whatever the interleaving
      of overlapping calls, the map they leave is this one, in the order
      their requests complete. */
  function CompleteAll<D>(entries: map<string, D>, completions: seq<(string, Result<D, string>)>): map<string, D>
  {
    if completions == [] then entries
    else
      var last := completions[|completions| - 1];
      Store(CompleteAll(entries, completions[..|completions| - 1]), last.0, last.1)
  }

  /** Under any interleaving no key is ever removed, and a value differs
      from what was stored before only when a request for its key
      completed with exactly that data. */
  lemma {:induction false} CompletionsKeepKeys<D>(entries: map<string, D>, completions: seq<(string, Result<D, string>)>)
    ensures forall k :: k in entries ==> k in CompleteAll(entries, completions)
    ensures forall k :: k in CompleteAll(entries, completions) ==>
      || (k in entries && CompleteAll(entries, completions)[k] == entries[k])
      || exists i :: 0 <= i < |completions| && completions[i] == (k, Success(CompleteAll(entries, completions)[k]))
  {
    if completions != [] {
      var front := completions[..|completions| - 1];
      var last := completions[|completions| - 1];
      CompletionsKeepKeys(entries, front);
      var before := CompleteAll(entries, front);
      var after := CompleteAll(entries, completions);
      assert after == Store(before, last.0, last.1);
      forall k | k in after
        ensures || (k in entries && after[k] == entries[k])
                || exists i :: 0 <= i < |completions| && completions[i] == (k, Success(after[k]))
      {
        if k == last.0 && last.1.Success? {
          assert completions[|completions| - 1] == (k, Success(after[k]));
        } else {
          assert k in before && after[k] == before[k];
          if !(k in entries && before[k] == entries[k]) {
            var i :| 0 <= i < |front| && front[i] == (k, Success(before[k]));
            assert completions[i] == front[i];
          }
        }
      }
    }
  }

  /** Two overlapping calls for an absent key both miss and both request;
      the request that completes last wins, so the first caller's data is
      no longer the cached one. Called one after the other, the second
      call would have been a hit on the first call's data. */
  lemma OverlapOverwrites<D>(entries: map<string, D>, key: string, a: D, b: D)
    requires key !in entries && a != b
    ensures Serve(entries, key, Success(a)).fetched && Serve(entries, key, Success(b)).fetched
    ensures CompleteAll(entries, [(key, Success(a)), (key, Success(b))])[key] == b != a
    ensures Serve(Serve(entries, key, Success(a)).entries, key, Success(b)).answer == Success(a)
  {
    var two: seq<(string, Result<D, string>)> := [(key, Success(a)), (key, Success(b))];
    assert two[..1] == [(key, Success(a))];
    assert two[..1][..0] == [];
  }

  /** After a successful request, asking again for the same key is a hit
      that answers the same data, whatever a new request would yield. */
  lemma ServeTwice<D>(entries: map<string, D>, key: string, first: Result<D, string>, second: Result<D, string>)
    requires first.Success?
    ensures var s1 := Serve(entries, key, first);
      var s2 := Serve(s1.entries, key, second);
      && !s2.fetched && s2.answer == s1.answer && s2.entries == s1.entries
  {
  }
}
