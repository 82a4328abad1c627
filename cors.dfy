/** The server's CORS origin rule: the allow-list and the origin callback. */
module Cors {
  import opened Wrappers
  import opened Text
  import opened Seqs

  const DefaultOrigin := "http://localhost:3000"

  predicate Truthy(s: Option<string>) { s.Some? && s.value != "" }

  /** `parts.map(o => o.trim())`. */
  function TrimEach(parts: seq<string>): (r: seq<string>)
    ensures |r| == |parts|
    ensures forall i :: 0 <= i < |r| ==> r[i] == Trim(parts[i])
  {
    seq(|parts|, i requires 0 <= i < |parts| => Trim(parts[i]))
  }

  /** `corsEnv ? corsEnv.split(",").map(o => o.trim()) : ["http://localhost:3000"]`. */
  function AllowedOrigins(corsEnv: Option<string>): (list: seq<string>)
    ensures |list| >= 1
    ensures !Truthy(corsEnv) ==> list == [DefaultOrigin]
    ensures Truthy(corsEnv) ==> |list| == |Split(corsEnv.value, ',')|
    ensures Truthy(corsEnv) ==> forall i :: 0 <= i < |list| ==> list[i] == Trim(Split(corsEnv.value, ',')[i])
    ensures forall i :: 0 <= i < |list| ==> ',' !in list[i]
  {
    if Truthy(corsEnv) then
      var parts := Split(corsEnv.value, ',');
      var list := TrimEach(parts);
      forall i | 0 <= i < |list|
        ensures ',' !in list[i]
      {
        assert parts[i] in parts;
        TrimNoComma(parts[i]);
      }
      list
    else [DefaultOrigin]
  }

  lemma TrimNoComma(s: string)
    requires ',' !in s
    ensures ',' !in Trim(s)
  {
    var r := Trim(s);
    var i :| 0 <= i <= |s| && OccursAt(s, r, i);
    forall k | 0 <= k < |r|
      ensures r[k] != ','
    {
      assert r[k] == s[i + k];
    }
  }

  datatype Decision = Allow | Deny(error: string)

  /** The origin callback: no origin is allowed, a listed origin is allowed, anything else is an error. */
  function OriginDecision(origin: Option<string>, allowed: seq<string>): (d: Decision)
    ensures !Truthy(origin) ==> d == Allow
    ensures Truthy(origin) ==> (d == Allow <==> origin.value in allowed)
    ensures d.Deny? ==> d.error == "Not allowed by CORS"
  {
    if !Truthy(origin) then Allow
    else if origin.value in allowed then Allow
    else Deny("Not allowed by CORS")
  }

  predicate NonEmpty(s: string) { s != "" }

  /** An empty entry, such as a trailing comma leaves, admits nothing the no-origin rule does not. */
  lemma EmptyEntriesAdmitNothing(origin: Option<string>, allowed: seq<string>)
    ensures OriginDecision(origin, allowed) == OriginDecision(origin, Filter(allowed, NonEmpty))
  {
  }

  /**
   * An origin is allowed by a set variable exactly when some comma-separated
   * part of it, trimmed, is that origin.
   */
  lemma OriginListedIff(v: string, o: string)
    requires v != ""
    ensures o in AllowedOrigins(Some(v)) <==> exists p :: p in Split(v, ',') && Trim(p) == o
  {
    var parts := Split(v, ',');
    var list := AllowedOrigins(Some(v));
    assert |list| == |parts|;
    if o in list {
      var i :| 0 <= i < |list| && list[i] == o;
      assert list[i] == Trim(parts[i]);
      assert parts[i] in parts;
    } else {
      forall p | p in parts
        ensures Trim(p) != o
      {
        var i :| 0 <= i < |parts| && parts[i] == p;
        assert list[i] == Trim(parts[i]);
      }
    }
  }

  /**
   * Comma-free entries written with spaces around them, such as
   * "a.com, b.com", are read back as the entries trimmed.
   */
  lemma {:induction false} AllowedOriginsTrimsParts(parts: seq<string>)
    requires |parts| >= 1 && Join(parts, ",") != ""
    requires forall i :: 0 <= i < |parts| ==> ',' !in parts[i]
    ensures AllowedOrigins(Some(Join(parts, ","))) == TrimEach(parts)
  {
    SplitJoin(parts, ',');
  }

  /** Writing an allow-list of trimmed, comma-free origins into the variable gives it back. */
  lemma {:induction false} AllowedOriginsRoundTrip(list: seq<string>)
    requires |list| >= 1 && Join(list, ",") != ""
    requires forall i :: 0 <= i < |list| ==> ',' !in list[i]
    requires forall i :: 0 <= i < |list| ==> list[i] == [] || (!IsSpace(list[i][0]) && !IsSpace(list[i][|list[i]| - 1]))
    ensures AllowedOrigins(Some(Join(list, ","))) == list
  {
    AllowedOriginsTrimsParts(list);
    var r := TrimEach(list);
    forall i | 0 <= i < |list|
      ensures r[i] == list[i]
    {
      TrimFixed(list[i]);
    }
  }

  lemma TrimFixed(s: string)
    requires s == [] || (!IsSpace(s[0]) && !IsSpace(s[|s| - 1]))
    ensures Trim(s) == s
  {
  }
}
