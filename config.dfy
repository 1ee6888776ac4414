/** The harness configuration: the defaults of its static settings, the rule
    by which a system property overrides each of them, and the conversion of
    the comma-separated custom-layout parameters into a URL query string. */
module Config {

  import opened Wrappers
  import opened JavaText

  /** A `name=value` term per pair of fields, in order. */
  function Pairs(fields: seq<string>): (ps: seq<string>)
    requires |fields| % 2 == 0
    ensures |ps| == |fields| / 2
  {
    seq(|fields| / 2, k requires 0 <= k < |fields| / 2 => fields[2 * k] + "=" + fields[2 * k + 1])
  }

  /** The query string the fields `n1,v1,n2,v2,...` stand for:
      `n1=v1&n2=v2&...`, with `&` between terms only. */
  function Query(fields: seq<string>): string
    requires |fields| % 2 == 0
  {
    Join(Pairs(fields), '&')
  }

  /** The inverse reading of a query string: its `&`-separated terms, each
      split at `=`. */
  function ParseQuery(q: string): seq<string>
  {
    SplitTerms(Split(q, '&'))
  }

  function SplitTerms(terms: seq<string>): seq<string>
  {
    if |terms| == 0 then [] else Split(terms[0], '=') + SplitTerms(terms[1..])
  }

  lemma {:induction false} JoinSnoc(xs: seq<string>, x: string, c: char)
    requires |xs| > 0
    ensures Join(xs + [x], c) == Join(xs, c) + [c] + x
    decreases |xs|
  {
    if |xs| == 1 {
      assert (xs + [x])[1..] == [x];
    } else {
      assert (xs + [x])[1..] == xs[1..] + [x];
      JoinSnoc(xs[1..], x, c);
    }
  }

  /** Growing the fields by one pair appends that pair's term, preceded by `&`
      unless it is the first: the query never starts or ends with an `&` of
      its own. */
  lemma QuerySnoc(fields: seq<string>, name: string, value: string)
    requires |fields| % 2 == 0
    ensures Query(fields + [name, value]) ==
            Query(fields) + (if |fields| > 0 then "&" else "") + name + "=" + value
  {
    assert Pairs(fields + [name, value]) == Pairs(fields) + [name + "=" + value];
    if |fields| > 0 {
      JoinSnoc(Pairs(fields), name + "=" + value, '&');
    } else {
      assert Pairs(fields + [name, value]) == [name + "=" + value];
    }
  }

  /** When no field holds `&` or `=`, reading the query back yields exactly
      the fields: every `&` separates two pairs and every `=` a name from its
      value, and empty fields survive. */
  lemma QueryRoundTrip(fields: seq<string>)
    requires |fields| > 0 && |fields| % 2 == 0
    requires AllFree(fields, '&') && AllFree(fields, '=')
    ensures ParseQuery(Query(fields)) == fields
  {
    var ps := Pairs(fields);
    forall k | 0 <= k < |ps| ensures Free(ps[k], '&') {
      assert Free(fields[2 * k], '&') && Free(fields[2 * k + 1], '&');
    }
    JoinSplit(ps, '&');
    TermsOfPairs(fields);
  }

  lemma {:induction false} TermsOfPairs(fields: seq<string>)
    requires |fields| % 2 == 0
    requires AllFree(fields, '=')
    ensures SplitTerms(Pairs(fields)) == fields
    decreases |fields|
  {
    if |fields| > 0 {
      var rest := fields[2..];
      assert AllFree(rest, '=') by {
        forall k | 0 <= k < |rest| ensures Free(rest[k], '=') {
          assert rest[k] == fields[k + 2];
        }
      }
      assert Pairs(fields)[1..] == Pairs(rest);
      TermsOfPairs(rest);
      assert Free(fields[0], '=') && Free(fields[1], '=');
      SplitFree(fields[1], '=');
      SplitPrefix(fields[0], fields[1], '=');
      assert fields[0] + "=" + fields[1] == fields[0] + ['='] + fields[1];
      assert fields == [fields[0], fields[1]] + rest;
    }
  }

  datatype LayoutError = OddNumberOfParams(count: nat)

  /** The builder loop of `loadEnvironmentVariables`: an odd number of fields
      is refused, otherwise names and values are appended pairwise. */
  method BuildLayoutParams(params: seq<string>) returns (r: Result<string, LayoutError>)
    ensures |params| % 2 != 0 ==> r == Err(OddNumberOfParams(|params|))
    ensures |params| % 2 == 0 ==> r == Ok(Query(params))
  {
    if |params| % 2 != 0 {
      return Err(OddNumberOfParams(|params|));
    }
    var acc := "";
    for i := 0 to |params|
      invariant i % 2 == 0 ==>
        acc == Query(params[..i]) + (if 0 < i < |params| then "&" else "")
      invariant i % 2 == 1 ==>
        acc == Query(params[..i - 1]) + (if i > 1 then "&" else "") + params[i - 1] + "="
    {
      if i % 2 == 0 {
        acc := acc + params[i] + "=";
      } else {
        QuerySnoc(params[..i - 1], params[i - 1], params[i]);
        assert params[..i - 1] + [params[i - 1], params[i]] == params[..i + 1];
        acc := acc + params[i];
        if i < |params| - 1 {
          acc := acc + "&";
        }
      }
    }
    assert params[..|params|] == params;
    assert acc == Query(params);
    return Ok(acc);
  }

  /** What the EXTERNAL_CUSTOM_LAYOUT_PARAMS property turns into: its fields
      as `split(",", -1)` yields them, built into a query. */
  function LayoutParams(property: string): (r: Result<string, LayoutError>)
  {
    var fields := Split(property, ',');
    if |fields| % 2 != 0 then Err(OddNumberOfParams(|fields|)) else Ok(Query(fields))
  }

  /** The property is accepted exactly when it holds an odd number of commas;
      in particular an empty property (one empty field) is refused. */
  lemma LayoutParamsAccepted(property: string)
    ensures LayoutParams(property).Ok? <==> Count(property, ',') % 2 == 1
  {
    var n := |Split(property, ',')|;
    var commas := Count(property, ',');
    SplitCount(property, ',');
    assert LayoutParams(property).Ok? <==> n % 2 == 0;
    OddSuccessor(commas, n);
  }

  lemma OddSuccessor(c: nat, n: nat)
    requires n == c + 1
    ensures n % 2 == 0 <==> c % 2 == 1
  {
  }

  /** An empty property is a single empty field, hence refused. */
  lemma EmptyLayoutParamsRefused()
    ensures LayoutParams("") == Err(OddNumberOfParams(1))
  {
    assert Split("", ',') == [""];
  }

  /** `System.getProperty(name)`: absent names read as null. */
  function Property(props: map<string, string>, name: string): (r: Option<string>)
    ensures r.Some? <==> name in props
    ensures r.Some? ==> r.value == props[name]
  {
    if name in props then Some(props[name]) else None
  }

  /** URL, secret, image and licence settings: any present property replaces
      the current value, even an empty one. */
  function OverridePresent(property: Option<string>, current: string): (r: string)
    ensures property.Some? ==> r == property.value
    ensures property.None? ==> r == current
  {
    if property.Some? then property.value else current
  }

  /** Browser versions: only a present, non-blank property replaces the
      current value, so a non-blank version can never become blank. */
  function OverrideVersion(property: Option<string>, current: string): (r: string)
    ensures property.Some? && !IsBlank(property.value) ==> r == property.value
    ensures property.None? || IsBlank(property.value) ==> r == current
  {
    if property.Some? && !IsBlank(property.value) then property.value else current
  }

  /** A non-blank version setting stays non-blank whatever the property says. */
  lemma VersionStaysNonBlank(property: Option<string>, current: string)
    requires !IsBlank(current)
    ensures !IsBlank(OverrideVersion(property, current))
  {
  }

  /** The two rules differ exactly on properties that are present and blank. */
  lemma OverrideRulesDiffer(property: Option<string>, current: string)
    ensures OverrideVersion(property, current) != OverridePresent(property, current)
        <==> property.Some? && IsBlank(property.value) && property.value != current
  {
  }
}
