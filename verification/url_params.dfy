/**
 * Query parameters as an ordered list of name/value pairs, with the
 * `URLSearchParams` operations of the WHATWG URL Standard (section 6.2,
 * "Interface URLSearchParams") that the application relies on: `get`,
 * `delete`, `set`, serialization and parsing.  Percent-encoding and the
 * `+`/space convention of application/x-www-form-urlencoded are not modelled.
 */
module UrlParams {
  import opened Wrappers
  import opened Text

  type Param = (string, string)
  type Params = seq<Param>

  /** `params.getAll(name)`: the values of the pairs with that name, in order. */
  function ValuesOf(ps: Params, name: string): (vs: seq<string>)
    ensures |vs| <= |ps|
    ensures vs == [] <==> forall i :: 0 <= i < |ps| ==> ps[i].0 != name
  {
    if ps == [] then []
    else (if ps[0].0 == name then [ps[0].1] else []) + ValuesOf(ps[1..], name)
  }

  /** `params.get(name)`: the value of the first pair with that name, if any. */
  function GetParam(ps: Params, name: string): (r: Option<string>)
    ensures r.None? <==> forall i :: 0 <= i < |ps| ==> ps[i].0 != name
    ensures r.Some? ==> (name, r.value) in ps
  {
    if ps == [] then None
    else if ps[0].0 == name then Some(ps[0].1)
    else GetParam(ps[1..], name)
  }

  /** `params.delete(name)`: every pair with that name is removed, the others keep their order. */
  function DeleteParam(ps: Params, name: string): (r: Params)
    ensures |r| <= |ps|
    ensures forall i :: 0 <= i < |r| ==> r[i].0 != name
  {
    if ps == [] then []
    else (if ps[0].0 == name then [] else [ps[0]]) + DeleteParam(ps[1..], name)
  }

  /**
   * `params.set(name, value)`: the first pair with that name takes the new
   * value and the other pairs with that name are removed; without such a
   * pair, the new pair is appended.
   */
  function SetParam(ps: Params, name: string, value: string): (r: Params)
    ensures |r| <= |ps| + 1
  {
    if ps == [] then [(name, value)]
    else if ps[0].0 == name then [(name, value)] + DeleteParam(ps[1..], name)
    else [ps[0]] + SetParam(ps[1..], name, value)
  }

  /**
   * After `set`, the name has exactly the one value set, every other pair is
   * as before, and a name not present before is appended at the end.
   */
  lemma {:induction false} SetParamMeaning(ps: Params, name: string, value: string)
    ensures ValuesOf(SetParam(ps, name, value), name) == [value]
    ensures DeleteParam(SetParam(ps, name, value), name) == DeleteParam(ps, name)
    ensures ValuesOf(ps, name) == [] ==> SetParam(ps, name, value) == ps + [(name, value)]
  {
    if ps == [] {
    } else if ps[0].0 == name {
      var rest := DeleteParam(ps[1..], name);
      DeleteKeepsOthers(ps[1..], name);
      assert ([(name, value)] + rest)[1..] == rest;
    } else {
      var rest := SetParam(ps[1..], name, value);
      SetParamMeaning(ps[1..], name, value);
      assert ([ps[0]] + rest)[1..] == rest;
    }
  }

  /** After a delete, no value of that name is left and deleting again changes nothing. */
  lemma {:induction false} DeleteKeepsOthers(ps: Params, name: string)
    ensures ValuesOf(DeleteParam(ps, name), name) == []
    ensures DeleteParam(DeleteParam(ps, name), name) == DeleteParam(ps, name)
  {
    if ps != [] {
      var rest := DeleteParam(ps[1..], name);
      DeleteKeepsOthers(ps[1..], name);
      if ps[0].0 == name {
        assert DeleteParam(ps, name) == rest;
      } else {
        assert DeleteParam(ps, name) == [ps[0]] + rest;
        assert ([ps[0]] + rest)[1..] == rest;
      }
    }
  }

  /** `get` returns the first of the values `getAll` lists. */
  lemma {:induction false} GetIsFirstValue(ps: Params, name: string)
    ensures GetParam(ps, name) == if ValuesOf(ps, name) == [] then None else Some(ValuesOf(ps, name)[0])
  {
    if ps != [] && ps[0].0 != name {
      GetIsFirstValue(ps[1..], name);
    }
  }

  /** A name present in the first part is found there, whatever follows. */
  lemma {:induction false} GetParamAppend(a: Params, b: Params, name: string)
    requires GetParam(a, name).Some?
    ensures GetParam(a + b, name) == GetParam(a, name)
  {
    assert (a + b)[0] == a[0];
    if a[0].0 != name {
      assert (a + b)[1..] == a[1..] + b;
      GetParamAppend(a[1..], b, name);
    }
  }

  lemma {:induction false} ValuesOfAppend(a: Params, b: Params, name: string)
    ensures ValuesOf(a + b, name) == ValuesOf(a, name) + ValuesOf(b, name)
  {
    if a == [] {
      assert a + b == b;
    } else {
      assert (a + b)[0] == a[0];
      assert (a + b)[1..] == a[1..] + b;
      ValuesOfAppend(a[1..], b, name);
    }
  }

  lemma {:induction false} DeleteParamAppend(a: Params, b: Params, name: string)
    ensures DeleteParam(a + b, name) == DeleteParam(a, name) + DeleteParam(b, name)
  {
    if a == [] {
      assert a + b == b;
    } else {
      assert (a + b)[1..] == a[1..] + b;
      DeleteParamAppend(a[1..], b, name);
    }
  }

  /** Deleting one name leaves the values of every other name as they were. */
  lemma {:induction false} DeletePreservesOtherValues(ps: Params, name: string, other: string)
    requires other != name
    ensures ValuesOf(DeleteParam(ps, name), other) == ValuesOf(ps, other)
  {
    if ps != [] {
      var rest := DeleteParam(ps[1..], name);
      DeletePreservesOtherValues(ps[1..], name, other);
      if ps[0].0 == name {
        assert DeleteParam(ps, name) == rest;
      } else {
        assert DeleteParam(ps, name) == [ps[0]] + rest;
        assert ([ps[0]] + rest)[1..] == rest;
      }
    }
  }

  /** `set` then `get` of the same name yields the value set; `delete` then `get` yields nothing. */
  lemma GetAfterSetAndDelete(ps: Params, name: string, value: string)
    ensures GetParam(SetParam(ps, name, value), name) == Some(value)
    ensures GetParam(DeleteParam(ps, name), name) == None
  {
    SetParamMeaning(ps, name, value);
    GetIsFirstValue(SetParam(ps, name, value), name);
    DeleteKeepsOthers(ps, name);
    GetIsFirstValue(DeleteParam(ps, name), name);
  }

  /** `set` and `delete` of one name leave `getAll` of every other name unchanged. */
  lemma OtherNamesUnaffected(ps: Params, name: string, value: string, other: string)
    requires other != name
    ensures ValuesOf(SetParam(ps, name, value), other) == ValuesOf(ps, other)
    ensures ValuesOf(DeleteParam(ps, name), other) == ValuesOf(ps, other)
  {
    SetParamMeaning(ps, name, value);
    DeletePreservesOtherValues(SetParam(ps, name, value), name, other);
    DeletePreservesOtherValues(ps, name, other);
  }

  /** Setting the same pair twice is the same as setting it once. */
  lemma {:induction false} SetIdempotent(ps: Params, name: string, value: string)
    ensures SetParam(SetParam(ps, name, value), name, value) == SetParam(ps, name, value)
  {
    if ps == [] {
    } else if ps[0].0 == name {
      DeleteKeepsOthers(ps[1..], name);
    } else {
      SetIdempotent(ps[1..], name, value);
    }
  }

  /** `set` over a concatenation whose first part has the name: the rest only loses that name. */
  lemma {:induction false} SetParamAppendFound(a: Params, b: Params, name: string, value: string)
    requires ValuesOf(a, name) != []
    ensures SetParam(a + b, name, value) == SetParam(a, name, value) + DeleteParam(b, name)
  {
    var ab := a + b;
    assert ab[0] == a[0];
    assert ab[1..] == a[1..] + b;
    if a[0].0 == name {
      DeleteParamAppend(a[1..], b, name);
    } else {
      assert ValuesOf(a[1..], name) == ValuesOf(a, name);
      SetParamAppendFound(a[1..], b, name, value);
      assert SetParam(ab, name, value) == [a[0]] + SetParam(a[1..] + b, name, value);
    }
  }

  /** `set` over a concatenation whose first part lacks the name: the first part is kept as is. */
  lemma {:induction false} SetParamAppendMissing(a: Params, b: Params, name: string, value: string)
    requires ValuesOf(a, name) == []
    ensures SetParam(a + b, name, value) == a + SetParam(b, name, value)
  {
    if a == [] {
      assert a + b == b;
    } else {
      var ab := a + b;
      assert a[0].0 != name;
      assert ab[0] == a[0];
      assert ab[1..] == a[1..] + b;
      assert ValuesOf(a[1..], name) == ValuesOf(a, name);
      SetParamAppendMissing(a[1..], b, name, value);
      assert SetParam(ab, name, value) == [a[0]] + SetParam(a[1..] + b, name, value);
      assert a == [a[0]] + a[1..];
    }
  }

  // ---------------------------------------------------------------------------
  // Serialization and parsing.

  predicate IsAmp(c: char) { c == '&' }
  predicate IsNotAmp(c: char) { c != '&' }
  predicate IsNotEquals(c: char) { c != '=' }

  function Encode(p: Param): string {
    p.0 + "=" + p.1
  }

  /** `params.toString()`: `name=value` pairs joined by `&`. */
  function Serialize(ps: Params): (s: string)
    ensures s == [] <==> ps == []
  {
    if ps == [] then ""
    else if |ps| == 1 then Encode(ps[0])
    else Encode(ps[0]) + "&" + Serialize(ps[1..])
  }

  /** The query split on every `&`; the empty string gives one empty segment. */
  function SplitAmp(s: string): (segments: seq<string>)
    ensures segments != []
    ensures forall i :: 0 <= i < |segments| ==> forall j :: 0 <= j < |segments[i]| ==> segments[i][j] != '&'
    decreases |s|
  {
    var k := PrefixLen(s, IsNotAmp);
    if k == |s| then [s] else [s[..k]] + SplitAmp(s[k + 1..])
  }

  /** One segment: the name up to the first `=`, the value after it (empty without `=`). */
  function ParsePair(segment: string): (p: Param)
    ensures p.0 <= segment
    ensures forall j :: 0 <= j < |p.0| ==> p.0[j] != '='
  {
    var k := PrefixLen(segment, IsNotEquals);
    if k == |segment| then (segment, "") else (segment[..k], segment[k + 1..])
  }

  /** Empty segments are skipped. */
  function ParseSegments(segments: seq<string>): (ps: Params)
    ensures |ps| <= |segments|
  {
    if segments == [] then []
    else (if segments[0] == "" then [] else [ParsePair(segments[0])]) + ParseSegments(segments[1..])
  }

  /** `new URLSearchParams(query)`: one leading `?` is dropped, then the segments are parsed. */
  function Parse(query: string): (ps: Params)
    ensures query == "" || query == "?" ==> ps == []
  {
    var body := if query != [] && query[0] == '?' then query[1..] else query;
    ParseSegments(SplitAmp(body))
  }

  /** Names free of `&` and `=`, values free of `&`: what survives serialization unencoded. */
  predicate Plain(ps: Params) {
    forall i :: 0 <= i < |ps| ==>
      (forall j :: 0 <= j < |ps[i].0| ==> ps[i].0[j] != '&' && ps[i].0[j] != '=')
      && (forall j :: 0 <= j < |ps[i].1| ==> ps[i].1[j] != '&')
  }

  lemma SplitAtAmp(x: string, y: string)
    requires forall j :: 0 <= j < |x| ==> x[j] != '&'
    ensures SplitAmp(x + "&" + y) == [x] + SplitAmp(y)
  {
    var s := x + "&" + y;
    assert s == x + ("&" + y);
    PrefixLenAppend(x, "&" + y, IsNotAmp);
    assert PrefixLen(s, IsNotAmp) == |x|;
    assert s[..|x|] == x;
    assert s[|x| + 1..] == y;
  }

  lemma SplitWithoutAmp(x: string)
    requires forall j :: 0 <= j < |x| ==> x[j] != '&'
    ensures SplitAmp(x) == [x]
  {
    PrefixLenAppend(x, [], IsNotAmp);
    assert x + [] == x;
  }

  lemma ParseEncoded(p: Param)
    requires forall j :: 0 <= j < |p.0| ==> p.0[j] != '='
    ensures ParsePair(Encode(p)) == p
  {
    var s := Encode(p);
    PrefixLenAppend(p.0, "=" + p.1, IsNotEquals);
    assert s == p.0 + ("=" + p.1);
    assert s[..|p.0|] == p.0;
    assert s[|p.0| + 1..] == p.1;
  }

  /** Parsing a serialized list of plain pairs gives the list back. */
  lemma {:induction false} ParseSerialize(ps: Params)
    requires Plain(ps)
    ensures ParseSegments(SplitAmp(Serialize(ps))) == ps
  {
    if ps == [] {
      SplitWithoutAmp("");
    } else {
      var e := Encode(ps[0]);
      assert e == ps[0].0 + "=" + ps[0].1;
      assert forall j :: 0 <= j < |e| ==> e[j] != '&' by {
        forall j | 0 <= j < |e|
          ensures e[j] != '&'
        {
          if j < |ps[0].0| {
            assert e[j] == ps[0].0[j];
          } else if j > |ps[0].0| {
            assert e[j] == ps[0].1[j - |ps[0].0| - 1];
          }
        }
      }
      assert e != "" by { assert e[|ps[0].0|] == '='; }
      ParseEncoded(ps[0]);
      if |ps| == 1 {
        SplitWithoutAmp(e);
      } else {
        assert Plain(ps[1..]) by {
          forall i | 0 <= i < |ps[1..]|
            ensures ps[1..][i] == ps[i + 1]
          {
          }
        }
        SplitAtAmp(e, Serialize(ps[1..]));
        ParseSerialize(ps[1..]);
      }
    }
  }

  /** The `?`-prefixed query string of a plain list parses back to that list. */
  lemma ParseQueryOfSerialize(ps: Params)
    requires Plain(ps)
    ensures Parse("?" + Serialize(ps)) == ps
  {
    assert ("?" + Serialize(ps))[1..] == Serialize(ps);
    ParseSerialize(ps);
  }

  // ---------------------------------------------------------------------------
  /** One more pair after the name was already found: only another pair with that name is dropped. */
  lemma SetStepFound(pre: Params, p: Param, name: string, value: string)
    requires ValuesOf(pre, name) != []
    ensures ValuesOf(pre + [p], name) != []
    ensures SetParam(pre + [p], name, value) == SetParam(pre, name, value) + (if p.0 == name then [] else [p])
  {
    ValuesOfAppend(pre, [p], name);
    SetParamAppendFound(pre, [p], name, value);
    assert DeleteParam([p], name) == if p.0 == name then [] else [p];
  }

  /** One more pair before the name was found: it is set there if it has the name, kept otherwise. */
  lemma SetStepMissing(pre: Params, p: Param, name: string, value: string)
    requires ValuesOf(pre, name) == []
    ensures ValuesOf(pre + [p], name) != [] <==> p.0 == name
    ensures p.0 == name ==> SetParam(pre + [p], name, value) == pre + [(name, value)]
  {
    ValuesOfAppend(pre, [p], name);
    SetParamAppendMissing(pre, [p], name, value);
    if p.0 == name {
      assert SetParam([p], name, value) == [(name, value)];
    }
  }

  // A `URLSearchParams` object, changed in place by `delete` and `set`.

  class SearchParams {
    var pairs: Params

    /** `new URLSearchParams()` */
    constructor ()
      ensures pairs == []
    {
      pairs := [];
    }

    /** `new URLSearchParams(other)`: a copy of another object's pairs. */
    constructor Copy(other: SearchParams)
      ensures pairs == other.pairs
    {
      pairs := other.pairs;
    }

    method Delete(name: string)
      modifies this
      ensures pairs == DeleteParam(old(pairs), name)
    {
      var ps := pairs;
      var kept: Params := [];
      var i := 0;
      while i < |ps|
        invariant 0 <= i <= |ps|
        invariant kept == DeleteParam(ps[..i], name)
      {
        assert ps[..i + 1] == ps[..i] + [ps[i]];
        DeleteParamAppend(ps[..i], [ps[i]], name);
        if ps[i].0 != name {
          kept := kept + [ps[i]];
        }
        i := i + 1;
      }
      assert ps[..i] == ps;
      pairs := kept;
    }

    method Set(name: string, value: string)
      modifies this
      ensures pairs == SetParam(old(pairs), name, value)
    {
      var ps := pairs;
      var result: Params := [];
      var found := false;
      var i := 0;
      while i < |ps|
        invariant 0 <= i <= |ps|
        invariant found <==> ValuesOf(ps[..i], name) != []
        invariant result == if found then SetParam(ps[..i], name, value) else ps[..i]
      {
        var p := ps[i];
        assert ps[..i + 1] == ps[..i] + [p];
        if found {
          SetStepFound(ps[..i], p, name, value);
          if p.0 != name {
            result := result + [p];
          }
        } else {
          SetStepMissing(ps[..i], p, name, value);
          if p.0 == name {
            result := result + [(name, value)];
            found := true;
          } else {
            result := result + [p];
          }
        }
        i := i + 1;
      }
      assert ps[..i] == ps;
      SetParamMeaning(ps, name, value);
      if !found {
        result := result + [(name, value)];
      }
      pairs := result;
    }
  }
}
