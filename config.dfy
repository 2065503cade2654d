/** `_coalesce_env`: the rule that turns a raw environment value into a usable
    setting, falling back to a default when the variable is unset, blank, or
    left as the unexpanded template `${NAME}`. */
module Config {
  import opened Common

  /** The characters Python's `str.isspace` accepts, which `str.strip()` removes. */
  predicate IsSpace(c: char)
  {
    c == ' ' || '\t' <= c <= '\r' || '\U{001C}' <= c <= '\U{001F}' || c == '\U{0085}' || c == '\U{00A0}'
    || c == '\U{1680}' || '\U{2000}' <= c <= '\U{200A}' || c == '\U{2028}' || c == '\U{2029}'
    || c == '\U{202F}' || c == '\U{205F}' || c == '\U{3000}'
  }

  ghost predicate AllSpace(s: string)
  {
    forall i :: 0 <= i < |s| ==> IsSpace(s[i])
  }

  /** Neither the first nor the last character is whitespace. */
  ghost predicate NoEdgeSpace(s: string)
  {
    s != [] ==> !IsSpace(s[0]) && !IsSpace(s[|s| - 1])
  }

  /** `s.lstrip()` */
  function StripLeft(s: string): (r: string)
    ensures |r| <= |s| && r == s[|s| - |r|..]
    ensures forall i :: 0 <= i < |s| - |r| ==> IsSpace(s[i])
    ensures r != [] ==> !IsSpace(r[0])
  {
    if s != [] && IsSpace(s[0]) then StripLeft(s[1..]) else s
  }

  /** `s.rstrip()` */
  function StripRight(s: string): (r: string)
    ensures |r| <= |s| && r == s[..|r|]
    ensures forall i :: |r| <= i < |s| ==> IsSpace(s[i])
    ensures r != [] ==> !IsSpace(r[|r| - 1])
  {
    if s != [] && IsSpace(s[|s| - 1]) then StripRight(s[..|s| - 1]) else s
  }

  /** `s.strip()`: the middle of `s` once the whitespace at both ends is removed. */
  function Strip(s: string): (r: string)
    ensures NoEdgeSpace(r)
    ensures |r| <= |s|
  {
    StripRight(StripLeft(s))
  }

  /** `strip` removes only whitespace: the input is the result padded on both sides
      with whitespace. */
  lemma StripDecomposes(s: string) returns (left: string, right: string)
    ensures s == left + Strip(s) + right
    ensures AllSpace(left) && AllSpace(right)
  {
    var t := StripLeft(s);
    left := StripLeftDecomposes(s);
    right := StripRightDecomposes(t);
    Regroup(s, left, t, Strip(s), right);
  }

  lemma Regroup(s: string, left: string, t: string, m: string, right: string)
    requires s == left + t && t == m + right
    ensures s == left + m + right
  {
  }

  lemma StripLeftDecomposes(s: string) returns (left: string)
    ensures s == left + StripLeft(s) && AllSpace(left)
  {
    var t := StripLeft(s);
    var n := |s| - |t|;
    left := s[..n];
    assert t == s[n..];
    assert s == left + t;
    forall k | 0 <= k < n ensures IsSpace(left[k]) {
      assert left[k] == s[k];
    }
  }

  lemma StripRightDecomposes(t: string) returns (right: string)
    ensures t == StripRight(t) + right && AllSpace(right)
  {
    var r := StripRight(t);
    right := t[|r|..];
    forall k | 0 <= k < |right| ensures IsSpace(right[k]) {
      assert right[k] == t[|r| + k];
    }
  }

  /** Whitespace on either side of a string without edge whitespace is exactly
      what `strip` removes. */
  lemma {:induction false} StripOfPadded(left: string, middle: string, right: string)
    requires AllSpace(left) && AllSpace(right) && NoEdgeSpace(middle)
    ensures Strip(left + middle + right) == middle
  {
    var rest := middle + right;
    assert rest[|middle|..] == right;
    assert left + middle + right == left + rest;
    StripLeftOfPadded(left, rest, middle);
    if middle == [] {
      assert Strip(left + middle + right) == StripRight([]);
    } else {
      StripRightOfPadded(middle, right);
    }
  }

  lemma {:induction false} StripLeftOfPadded(left: string, rest: string, middle: string)
    requires AllSpace(left) && NoEdgeSpace(middle)
    requires |middle| <= |rest| && rest == middle + rest[|middle|..] && AllSpace(rest[|middle|..])
    ensures StripLeft(left + rest) == (if middle == [] then [] else rest)
  {
    if left == [] {
      assert left + rest == rest;
      if middle == [] {
        StripLeftOfSpace(rest);
      }
    } else {
      assert (left + rest)[1..] == left[1..] + rest;
      StripLeftOfPadded(left[1..], rest, middle);
    }
  }

  lemma {:induction false} StripLeftOfSpace(s: string)
    requires AllSpace(s)
    ensures StripLeft(s) == []
  {
    if s != [] {
      StripLeftOfSpace(s[1..]);
    }
  }

  lemma {:induction false} StripRightOfPadded(middle: string, right: string)
    requires AllSpace(right) && NoEdgeSpace(middle)
    ensures StripRight(middle + right) == middle
  {
    if right != [] {
      var s := middle + right;
      assert s[..|s| - 1] == middle + right[..|right| - 1];
      StripRightOfPadded(middle, right[..|right| - 1]);
    } else {
      assert middle + right == middle;
      if middle == [] {
        StripRightOfSpace(middle);
      }
    }
  }

  lemma {:induction false} StripRightOfSpace(s: string)
    requires AllSpace(s)
    ensures StripRight(s) == []
  {
    if s != [] {
      StripRightOfSpace(s[..|s| - 1]);
    }
  }

  /** Stripping twice is stripping once. */
  lemma StripIdempotent(s: string)
    ensures Strip(Strip(s)) == Strip(s)
  {
    StripOfPadded([], Strip(s), []);
    assert [] + Strip(s) + [] == Strip(s);
  }

  /** The unexpanded template `${NAME}` a deployment leaves when no value was supplied. */
  function Placeholder(name: string): string
  {
    "${" + name + "}"
  }

  /** `_coalesce_env(name, default)`, where `value` is what `os.getenv(name)` returned. */
  function CoalesceEnv(name: string, value: Option<string>, default: string): (r: string)
    ensures value.None? ==> r == default
    ensures value.Some? && (Strip(value.value) == [] || Strip(value.value) == Placeholder(name)) ==> r == default
    ensures value.Some? && Strip(value.value) != [] && Strip(value.value) != Placeholder(name) ==>
      r == Strip(value.value)
    ensures r == default || (r != [] && NoEdgeSpace(r) && r != Placeholder(name))
  {
    match value
    case None => default
    case Some(v) =>
      var stripped := Strip(v);
      if stripped == [] || stripped == Placeholder(name) then default
      else stripped
  }

  /** A value that is blank, or is the variable's own template padded with whitespace, falls back. */
  lemma PaddedPlaceholderFallsBack(name: string, left: string, right: string, default: string)
    requires AllSpace(left) && AllSpace(right)
    ensures CoalesceEnv(name, Some(left + Placeholder(name) + right), default) == default
    ensures CoalesceEnv(name, Some(left + right), default) == default
  {
    StripOfPadded(left, Placeholder(name), right);
    assert left + [] + right == left + right;
    StripOfPadded(left, [], right);
  }

  /** Re-reading a coalesced value gives the same setting, provided the default is
      itself a usable value. */
  lemma CoalesceStable(name: string, value: Option<string>, default: string)
    requires default != [] && NoEdgeSpace(default) && default != Placeholder(name)
    ensures var r := CoalesceEnv(name, value, default);
      CoalesceEnv(name, Some(r), default) == r
  {
    StripOfPadded([], CoalesceEnv(name, value, default), []);
    assert [] + CoalesceEnv(name, value, default) + [] == CoalesceEnv(name, value, default);
  }

  /** Only the template naming the variable itself is recognised: the doubled-brace
      form `${{Postgres.DATABASE_URL}}` is returned unchanged rather than replaced by
      the default. */
  lemma DoubleBraceTemplateIsKept()
    ensures CoalesceEnv("DATABASE_URL", Some("${{Postgres.DATABASE_URL}}"), "sqlite:///./xrp_intel.db")
         == "${{Postgres.DATABASE_URL}}"
  {
    var v := "${{Postgres.DATABASE_URL}}";
    StripOfPadded([], v, []);
    assert [] + v + [] == v;
    assert |Placeholder("DATABASE_URL")| != |v|;
  }
}
