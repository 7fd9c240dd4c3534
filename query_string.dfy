/**
 * The part of Python's `urllib.parse.parse_qs` (with its default
 * `keep_blank_values=False`, `strict_parsing=False`, separator `&`) that
 * decides which values the resolver sees: fields are split on `&`, each field
 * on its first `=`, fields without `=` and fields with a blank value are
 * dropped, and the surviving values are grouped by key in order of appearance.
 * Percent-decoding and `+` to space are not part of this model.
 */
module QueryString {
  import opened Wrappers

  type Pair = (string, string)

  /** The first position of c in s. */
  function IndexOf(s: string, c: char): (i: nat)
    requires c in s
    ensures i < |s| && s[i] == c && c !in s[..i]
  {
    if s[0] == c then 0 else 1 + IndexOf(s[1..], c)
  }

  /** The first c in a + [c] + b is the one after a, when a holds none. */
  lemma IndexOfAfter(a: string, c: char, b: string)
    requires c !in a
    ensures IndexOf(a + [c] + b, c) == |a|
  {
    var s := a + [c] + b;
    var i := IndexOf(s, c);
    assert s[|a|] == c;
    assert forall j :: 0 <= j < |a| ==> s[j] == a[j];
  }

  /** A separator-free head splits off as the first part. */
  lemma SplitCons(x: string, sep: char, y: string)
    requires sep !in x
    ensures Split(x + [sep] + y, sep) == [x] + Split(y, sep)
  {
    var s := x + [sep] + y;
    IndexOfAfter(x, sep, y);
    assert s[..|x|] == x;
    assert s[|x| + 1..] == y;
  }

  /** Joins parts with sep between neighbours (Python's `sep.join(parts)`). */
  function Join(parts: seq<string>, sep: char): string
    requires |parts| >= 1
  {
    if |parts| == 1 then parts[0] else parts[0] + [sep] + Join(parts[1..], sep)
  }

  /** Python's `s.split(sep)` for a one-character separator. */
  function Split(s: string, sep: char): (parts: seq<string>)
    ensures |parts| >= 1
    ensures forall i :: 0 <= i < |parts| ==> sep !in parts[i]
    decreases |s|
  {
    if sep !in s then [s]
    else
      var i := IndexOf(s, sep);
      [s[..i]] + Split(s[i + 1..], sep)
  }

  /** Joining the parts of a split gives the original string back. */
  lemma {:induction false} JoinSplit(s: string, sep: char)
    ensures Join(Split(s, sep), sep) == s
    decreases |s|
  {
    if sep in s {
      var i := IndexOf(s, sep);
      assert s == s[..i] + [sep] + s[i + 1..];
      JoinSplit(s[i + 1..], sep);
    }
  }

  /** Splitting a join of separator-free parts gives the parts back. */
  lemma {:induction false} SplitJoin(parts: seq<string>, sep: char)
    requires |parts| >= 1
    requires forall i :: 0 <= i < |parts| ==> sep !in parts[i]
    ensures Split(Join(parts, sep), sep) == parts
  {
    if |parts| > 1 {
      calc {
        Split(Join(parts, sep), sep);
        Split(parts[0] + [sep] + Join(parts[1..], sep), sep);
        { SplitCons(parts[0], sep, Join(parts[1..], sep)); }
        [parts[0]] + Split(Join(parts[1..], sep), sep);
        { SplitJoin(parts[1..], sep); }
        [parts[0]] + parts[1..];
        parts;
      }
    }
  }

  /**
   * One `name=value` field: split on the first `=`; a field with no `=` or
   * with an empty value is dropped.
   */
  function ParseField(field: string): (r: Option<Pair>)
    ensures r.Some? ==> '=' !in r.value.0 && r.value.1 != [] && field == r.value.0 + "=" + r.value.1
    ensures r.None? ==> '=' !in field || ('=' !in field[..|field| - 1] && field[|field| - 1] == '=')
  {
    if '=' !in field then None
    else
      var i := IndexOf(field, '=');
      if i + 1 == |field| then None
      else
        assert field == field[..i] + "=" + field[i + 1..];
        Some((field[..i], field[i + 1..]))
  }

  /** A pair as the query would carry it: no `=` in the name, a non-blank value, no `&` anywhere. */
  predicate Encodable(p: Pair) {
    '=' !in p.0 && p.1 != [] && '&' !in p.0 && '&' !in p.1
  }

  function CollectFields(fields: seq<string>): (pairs: seq<Pair>)
    requires forall i :: 0 <= i < |fields| ==> '&' !in fields[i]
    ensures |pairs| <= |fields|
    ensures forall i :: 0 <= i < |pairs| ==> Encodable(pairs[i])
  {
    if fields == [] then []
    else
      (match ParseField(fields[0]) case Some(p) => [p] case None => [])
      + CollectFields(fields[1..])
  }

  /** Python's `parse_qsl(query)`: the surviving fields, in order, each with a non-blank value. */
  function ParseQsl(query: string): (pairs: seq<Pair>)
    ensures forall i :: 0 <= i < |pairs| ==> Encodable(pairs[i])
  {
    CollectFields(Split(query, '&'))
  }

  /** The query text that carries exactly the given pairs: `k1=v1&k2=v2&...`. */
  function EncodeQuery(pairs: seq<Pair>): string
  {
    if pairs == [] then ""
    else if |pairs| == 1 then pairs[0].0 + "=" + pairs[0].1
    else pairs[0].0 + "=" + pairs[0].1 + "&" + EncodeQuery(pairs[1..])
  }

  lemma {:induction false} ParseEncodedField(p: Pair)
    requires Encodable(p)
    ensures ParseField(p.0 + "=" + p.1) == Some(p)
  {
    var f := p.0 + "=" + p.1;
    IndexOfAfter(p.0, '=', p.1);
    var i := IndexOf(f, '=');
    assert f[..i] == p.0 && f[i + 1..] == p.1;
  }

  /** Every list of encodable pairs survives encoding and `parse_qsl` unchanged. */
  lemma {:induction false} ParseQslEncodeQuery(pairs: seq<Pair>)
    requires forall i :: 0 <= i < |pairs| ==> Encodable(pairs[i])
    ensures ParseQsl(EncodeQuery(pairs)) == pairs
  {
    if pairs == [] {
      assert Split("", '&') == [""];
    } else {
      var f := pairs[0].0 + "=" + pairs[0].1;
      SingleField(pairs[0]);
      if |pairs| > 1 {
        var rest := EncodeQuery(pairs[1..]);
        assert EncodeQuery(pairs) == f + "&" + rest;
        calc {
          ParseQsl(f + "&" + rest);
          { ParseQslConcat(f, rest); }
          ParseQsl(f) + ParseQsl(rest);
          { ParseQslEncodeQuery(pairs[1..]); }
          [pairs[0]] + pairs[1..];
          pairs;
        }
      }
    }
  }

  /** One encodable pair, written alone, parses to itself. */
  lemma SingleField(p: Pair)
    requires Encodable(p)
    ensures ParseQsl(p.0 + "=" + p.1) == [p]
  {
    var f := p.0 + "=" + p.1;
    ParseEncodedField(p);
    assert '&' !in f;
    assert Split(f, '&') == [f];
    assert CollectFields([f]) == [p] + CollectFields([]);
  }

  lemma {:induction false} SplitConcat(a: string, sep: char, b: string)
    ensures Split(a + [sep] + b, sep) == Split(a, sep) + Split(b, sep)
    decreases |a|
  {
    if sep !in a {
      SplitCons(a, sep, b);
    } else {
      var i := IndexOf(a, sep);
      var head, tail := a[..i], a[i + 1..];
      assert a == head + [sep] + tail;
      assert a + [sep] + b == head + [sep] + (tail + [sep] + b);
      calc {
        Split(a + [sep] + b, sep);
        Split(head + [sep] + (tail + [sep] + b), sep);
        { SplitCons(head, sep, tail + [sep] + b); }
        [head] + Split(tail + [sep] + b, sep);
        { SplitConcat(tail, sep, b); }
        [head] + (Split(tail, sep) + Split(b, sep));
        ([head] + Split(tail, sep)) + Split(b, sep);
        { SplitCons(head, sep, tail); }
        Split(head + [sep] + tail, sep) + Split(b, sep);
        Split(a, sep) + Split(b, sep);
      }
    }
  }

  lemma {:induction false} CollectFieldsConcat(x: seq<string>, y: seq<string>)
    requires forall i :: 0 <= i < |x| ==> '&' !in x[i]
    requires forall i :: 0 <= i < |y| ==> '&' !in y[i]
    ensures CollectFields(x + y) == CollectFields(x) + CollectFields(y)
  {
    if x != [] {
      var xy := x + y;
      assert xy[0] == x[0];
      assert xy[1..] == x[1..] + y;
      CollectFieldsConcat(x[1..], y);
      var head := match ParseField(x[0]) case Some(p) => [p] case None => [];
      calc {
        CollectFields(xy);
        head + CollectFields(xy[1..]);
        head + (CollectFields(x[1..]) + CollectFields(y));
        (head + CollectFields(x[1..])) + CollectFields(y);
        CollectFields(x) + CollectFields(y);
      }
    } else {
      assert x + y == y;
    }
  }

  /** Fields on either side of an `&` are parsed independently. */
  lemma ParseQslConcat(q1: string, q2: string)
    ensures ParseQsl(q1 + "&" + q2) == ParseQsl(q1) + ParseQsl(q2)
  {
    SplitConcat(q1, '&', q2);
    CollectFieldsConcat(Split(q1, '&'), Split(q2, '&'));
  }

  /** A field with a blank value (`name=`) contributes nothing (`keep_blank_values=False`). */
  lemma BlankValueDropped(name: string, query: string)
    requires '=' !in name && '&' !in name
    ensures ParseQsl(name + "=&" + query) == ParseQsl(query)
  {
    var f := name + "=";
    assert name + "=&" + query == f + "&" + query;
    ParseQslConcat(f, query);
    assert '=' !in f[..|f| - 1];
    assert Split(f, '&') == [f];
  }

  /** A blank value followed by a real one for the same name leaves only the real one. */
  lemma BlankThenValue(name: string, value: string)
    requires Encodable((name, value))
    ensures ParseQsl(name + "=&" + name + "=" + value) == [(name, value)]
  {
    var rest := name + "=" + value;
    assert name + "=&" + name + "=" + value == name + "=&" + rest;
    BlankValueDropped(name, rest);
    assert EncodeQuery([(name, value)]) == rest;
    ParseQslEncodeQuery([(name, value)]);
  }

  /** All values given for key, in order of appearance. */
  function ValuesOf(pairs: seq<Pair>, key: string): seq<string>
  {
    if pairs == [] then []
    else (if pairs[0].0 == key then [pairs[0].1] else []) + ValuesOf(pairs[1..], key)
  }

  lemma {:induction false} ValuesOfSnoc(pairs: seq<Pair>, p: Pair, key: string)
    ensures ValuesOf(pairs + [p], key) == ValuesOf(pairs, key) + (if p.0 == key then [p.1] else [])
  {
    if pairs != [] {
      assert (pairs + [p])[1..] == pairs[1..] + [p];
      ValuesOfSnoc(pairs[1..], p, key);
    } else {
      assert [p][1..] == [];
    }
  }

  /**
   * Python's `parse_qs(query)` dictionary, built as `parse_qs` builds it: each
   * pair in turn appends its value to the list kept under its name.
   */
  function Group(pairs: seq<Pair>): map<string, seq<string>>
  {
    if pairs == [] then map[]
    else
      var m := Group(pairs[..|pairs| - 1]);
      var (k, v) := pairs[|pairs| - 1];
      m[k := (if k in m then m[k] else []) + [v]]
  }

  /** A name is a key of the dictionary exactly when it has values, and it maps to all of them in order. */
  lemma {:induction false} GroupValues(pairs: seq<Pair>, key: string)
    ensures key in Group(pairs) <==> ValuesOf(pairs, key) != []
    ensures key in Group(pairs) ==> Group(pairs)[key] == ValuesOf(pairs, key)
  {
    if pairs != [] {
      var init := pairs[..|pairs| - 1];
      var p := pairs[|pairs| - 1];
      assert pairs == init + [p];
      GroupValues(init, key);
      ValuesOfSnoc(init, p, key);
    }
  }

  lemma {:induction false} ValuesNonBlank(pairs: seq<Pair>, key: string)
    requires forall i :: 0 <= i < |pairs| ==> pairs[i].1 != []
    ensures forall i :: 0 <= i < |ValuesOf(pairs, key)| ==> ValuesOf(pairs, key)[i] != []
  {
    if pairs != [] {
      ValuesNonBlank(pairs[1..], key);
    }
  }

  lemma GroupNonBlank(pairs: seq<Pair>)
    requires forall i :: 0 <= i < |pairs| ==> pairs[i].1 != []
    ensures forall key :: key in Group(pairs) <==> ValuesOf(pairs, key) != []
    ensures forall key :: key in Group(pairs) ==> Group(pairs)[key] == ValuesOf(pairs, key)
    ensures forall key, i :: 0 <= i < |ValuesOf(pairs, key)| ==> ValuesOf(pairs, key)[i] != []
  {
    forall key | true
      ensures key in Group(pairs) <==> ValuesOf(pairs, key) != []
      ensures key in Group(pairs) ==> Group(pairs)[key] == ValuesOf(pairs, key)
      ensures forall i :: 0 <= i < |ValuesOf(pairs, key)| ==> ValuesOf(pairs, key)[i] != []
    {
      GroupValues(pairs, key);
      ValuesNonBlank(pairs, key);
    }
  }

  /**
   * Python's `parse_qs(query)`: every name in the dictionary maps to a
   * non-empty list of the query's values for it, in order, none of them blank.
   */
  function ParseQs(query: string): (qs: map<string, seq<string>>)
    ensures forall key :: key in qs ==> qs[key] == ValuesOf(ParseQsl(query), key) && qs[key] != []
    ensures forall key :: key !in qs ==> ValuesOf(ParseQsl(query), key) == []
    ensures forall key, i :: key in qs && 0 <= i < |qs[key]| ==> qs[key][i] != []
  {
    GroupNonBlank(ParseQsl(query));
    Group(ParseQsl(query))
  }

  /** `qs.get(key, [default])[0]` on a `parse_qs` dictionary. */
  function GetFirst(qs: map<string, seq<string>>, key: string, default: string): (r: string)
    ensures key !in qs ==> r == default
    ensures key in qs && qs[key] != [] ==> r == qs[key][0]
    ensures r == default || (key in qs && r in qs[key])
  {
    if key in qs && qs[key] != [] then qs[key][0] else default
  }

  /** The value of the first pair named key, or default when no pair is. */
  function FirstOr(pairs: seq<Pair>, key: string, default: string): (r: string)
    ensures (forall i :: 0 <= i < |pairs| ==> pairs[i].0 != key) ==> r == default
    ensures forall i :: 0 <= i < |pairs| && pairs[i].0 == key && (forall j :: 0 <= j < i ==> pairs[j].0 != key)
              ==> r == pairs[i].1
  {
    if pairs == [] then default
    else if pairs[0].0 == key then pairs[0].1
    else
      var r := FirstOr(pairs[1..], key, default);
      assert forall i :: 1 <= i < |pairs| ==> pairs[i] == pairs[1..][i - 1];
      r
  }

  lemma {:induction false} FirstOrValues(pairs: seq<Pair>, key: string, default: string)
    ensures ValuesOf(pairs, key) == [] ==> FirstOr(pairs, key, default) == default
    ensures ValuesOf(pairs, key) != [] ==> FirstOr(pairs, key, default) == ValuesOf(pairs, key)[0]
  {
    if pairs != [] && pairs[0].0 != key {
      FirstOrValues(pairs[1..], key, default);
    }
  }

  /**
   * The dictionary lookup the resolver performs gives the first value named
   * key in the query, and default when the query names key nowhere.
   */
  lemma ParseQsFirstWins(query: string, key: string, default: string)
    ensures GetFirst(ParseQs(query), key, default) == FirstOr(ParseQsl(query), key, default)
  {
    GroupValues(ParseQsl(query), key);
    FirstOrValues(ParseQsl(query), key, default);
  }
}
