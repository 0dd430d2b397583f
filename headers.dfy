/**
 * The cache headers helper (headers.go): three in-place sets on the
 * response header map.
 */
module CacheHeaders {
  import opened Numeric

  /** daysToSeconds. */
  const SecondsPerDay: int := 86400

  /** A token character of a header field name (section 5.6.2 of RFC 9110). */
  predicate IsTokenChar(c: char)
  {
    || 'a' <= c <= 'z' || 'A' <= c <= 'Z' || '0' <= c <= '9'
    || c == '!' || c == '#' || c == '$' || c == '%' || c == '&' || c == '\'' || c == '*'
    || c == '+' || c == '-' || c == '.' || c == '^' || c == '_' || c == '`' || c == '|' || c == '~'
  }

  function Upper(c: char): char { if 'a' <= c <= 'z' then (c as int - 32) as char else c }

  function Lower(c: char): char { if 'A' <= c <= 'Z' then (c as int + 32) as char else c }

  /** A field name with the first letter and every letter after a '-' in
      upper case and all other letters in lower case. */
  function Capitalised(s: string): (r: string)
    ensures |r| == |s|
  {
    seq(|s|, i requires 0 <= i < |s| => if i == 0 || s[i - 1] == '-' then Upper(s[i]) else Lower(s[i]))
  }

  /** The key http.Header.Set stores under (textproto's canonical MIME
      header key): a name made only of token characters is capitalised,
      any other name is kept as it is. */
  function CanonicalKey(key: string): (k: string)
    ensures |k| == |key|
  {
    if forall i :: 0 <= i < |key| ==> IsTokenChar(key[i]) then Capitalised(key) else key
  }

  /** Canonicalisation changes letter case only. */
  lemma CanonicalKeyCaseOnly(key: string, i: nat)
    requires i < |key|
    ensures Lower(CanonicalKey(key)[i]) == Lower(key[i])
  {
  }

  /** Canonicalising a canonical key changes nothing. */
  lemma CanonicalKeyIdempotent(key: string)
    ensures CanonicalKey(CanonicalKey(key)) == CanonicalKey(key)
  {
    if forall i :: 0 <= i < |key| ==> IsTokenChar(key[i]) {
      var k := Capitalised(key);
      forall i | 0 <= i < |k| ensures IsTokenChar(k[i]) {
        CaseMapsKeepTokens(key[i]);
      }
      forall i | 0 <= i < |k| ensures Capitalised(k)[i] == k[i] {
        CapitalisedTwiceAt(key, i);
      }
    }
  }

  lemma CaseMapsKeepTokens(c: char)
    requires IsTokenChar(c)
    ensures IsTokenChar(Upper(c)) && IsTokenChar(Lower(c))
  {
  }

  lemma CapitalisedTwiceAt(key: string, i: nat)
    requires i < |key|
    ensures Capitalised(Capitalised(key))[i] == Capitalised(key)[i]
  {
    var k := Capitalised(key);
    if i > 0 {
      assert k[i - 1] == '-' <==> key[i - 1] == '-';
    }
  }

  /** The three keys, as the header map holds them: "ETag" becomes "Etag". */
  lemma StoredKeys()
    ensures CanonicalKey("Cache-Control") == "Cache-Control"
    ensures CanonicalKey("Expires") == "Expires"
    ensures CanonicalKey("ETag") == "Etag"
  {
    CacheControlKey();
    ExpiresKey();
    ETagKey();
  }

  lemma CacheControlKey()
    ensures CanonicalKey("Cache-Control") == "Cache-Control"
  {
    var key := "Cache-Control";
    assert forall i :: 0 <= i < |key| ==> IsTokenChar(key[i]);
    TokenKey(key);
    assert Capitalised("Cache-Control") == "Cache-Control";
  }

  lemma ExpiresKey()
    ensures CanonicalKey("Expires") == "Expires"
  {
    var key := "Expires";
    assert forall i :: 0 <= i < |key| ==> IsTokenChar(key[i]);
    TokenKey(key);
    assert Capitalised("Expires") == "Expires";
  }

  lemma ETagKey()
    ensures CanonicalKey("ETag") == "Etag"
  {
    var key := "ETag";
    assert forall i :: 0 <= i < |key| ==> IsTokenChar(key[i]);
    TokenKey(key);
    assert Capitalised("ETag") == "Etag";
  }

  lemma TokenKey(key: string)
    requires forall i :: 0 <= i < |key| ==> IsTokenChar(key[i])
    ensures CanonicalKey(key) == Capitalised(key)
  {
  }

  /** The Cache-Control value: "max-age:" (a colon where section 5.2.2.1 of
      RFC 9111 has '=') then days*86400 as Go's int computes it. */
  function CacheControl(days: Int64): (v: string)
    ensures |v| > 8 && v[..8] == "max-age:"
    ensures v[8..] == FormatInt(Wrap64(days * SecondsPerDay))
    ensures ParseInt64(v[8..]) == Parsed(Wrap64(days * SecondsPerDay))
    ensures MinInt64 <= days * SecondsPerDay <= MaxInt64 ==> ParseInt64(v[8..]) == Parsed(days * SecondsPerDay)
  {
    var seconds := Wrap64(days * SecondsPerDay);
    FormatIntRoundTrip(seconds);
    assert ("max-age:" + FormatInt(seconds))[8..] == FormatInt(seconds);
    "max-age:" + FormatInt(seconds)
  }

  /** The ETag value: the hash between double quotes, not escaped
      (an entity-tag as in section 8.8.3 of RFC 9110 when the hash holds no quote). */
  function ETag(hash: string): (v: string)
    ensures |v| == |hash| + 2 && v[0] == '"' && v[|v| - 1] == '"'
    ensures v[1..|v| - 1] == hash
  {
    "\"" + hash + "\""
  }

  /** The header map after the three sets. */
  function WithCacheHeaders(fields: map<string, seq<string>>, days: Int64, hash: string, expires: string): (r: map<string, seq<string>>)
    ensures r.Keys == fields.Keys + {"Cache-Control", "Expires", "Etag"}
    ensures r["Cache-Control"] == [CacheControl(days)] && r["Expires"] == [expires] && r["Etag"] == [ETag(hash)]
    ensures forall k :: k in fields && k !in {"Cache-Control", "Expires", "Etag"} ==> r[k] == fields[k]
  {
    StoredKeys();
    fields[CanonicalKey("Cache-Control") := [CacheControl(days)]]
          [CanonicalKey("Expires") := [expires]]
          [CanonicalKey("ETag") := [ETag(hash)]]
  }

  /** Adding the headers a second time with the same arguments changes nothing. */
  lemma CacheHeadersIdempotent(fields: map<string, seq<string>>, days: Int64, hash: string, expires: string)
    ensures WithCacheHeaders(WithCacheHeaders(fields, days, hash, expires), days, hash, expires)
         == WithCacheHeaders(fields, days, hash, expires)
  {
  }

  /** Thirty days, the helper's documented default, give "max-age:2592000". */
  lemma ThirtyDays()
    ensures CacheControl(30) == "max-age:2592000"
  {
    assert 30 * SecondsPerDay == 2592000;
    FormatThirtyDays();
  }

  lemma FormatThirtyDays()
    ensures FormatInt(2592000) == "2592000"
  {
    calc {
      NatDigits(2592000);
      NatDigits(259200) + [DigitChar(0)];
      NatDigits(25920) + [DigitChar(0)] + [DigitChar(0)];
      NatDigits(2592) + [DigitChar(0)] + [DigitChar(0)] + [DigitChar(0)];
      NatDigits(259) + [DigitChar(2)] + [DigitChar(0)] + [DigitChar(0)] + [DigitChar(0)];
      NatDigits(25) + [DigitChar(9)] + [DigitChar(2)] + [DigitChar(0)] + [DigitChar(0)] + [DigitChar(0)];
      NatDigits(2) + [DigitChar(5)] + [DigitChar(9)] + [DigitChar(2)] + [DigitChar(0)] + [DigitChar(0)] + [DigitChar(0)];
      "2592000";
    }
  }

  /** The response header map (http.Header), which Set updates in place. */
  class Header {
    var fields: map<string, seq<string>>

    constructor (fields: map<string, seq<string>>)
      ensures this.fields == fields
    {
      this.fields := fields;
    }

    /** Set: the key's values become exactly [value], under its canonical form. */
    method Set(key: string, value: string)
      modifies this
      ensures fields == old(fields)[CanonicalKey(key) := [value]]
    {
      fields := fields[CanonicalKey(key) := [value]];
    }
  }

  /** AddCacheHeaders; the Expires value, which the source computes from
      the clock, is passed in. */
  method AddCacheHeaders(w: Header, days: Int64, hash: string, expires: string)
    modifies w
    ensures w.fields == WithCacheHeaders(old(w.fields), days, hash, expires)
  {
    w.Set("Cache-Control", "max-age:" + FormatInt(Wrap64(days * SecondsPerDay)));
    w.Set("Expires", expires);
    w.Set("ETag", "\"" + hash + "\"");
  }
}
