/** String helpers: JavaScript truthiness of query parameters, `endsWith`,
    `Array.prototype.join` and `String.prototype.split` on one character. */
module Strings {
  import opened Wrappers

  /** A `searchParams.get(...)` result is truthy when it is present and not the empty string. */
  predicate Present(param: Option<string>)
  {
    param.Some? && param.value != ""
  }

  /** `searchParams.get(name) || default`: the empty string falls back to the default too. */
  function ParamOr(param: Option<string>, default: string): (r: string)
    ensures Present(param) ==> r == param.value
    ensures !Present(param) ==> r == default
  {
    if Present(param) then param.value else default
  }

  predicate EndsWith(s: string, suffix: string)
  {
    |suffix| <= |s| && s[|s| - |suffix|..] == suffix
  }

  /** `parts.join(sep)`: no separator before the first part or after the last. */
  function Join(parts: seq<string>, sep: string): string
    decreases |parts|
  {
    if |parts| == 0 then ""
    else if |parts| == 1 then parts[0]
    else parts[0] + sep + Join(parts[1..], sep)
  }

  /** The position of the first occurrence of `c`. */
  function IndexOf(s: string, c: char): (i: nat)
    requires c in s
    ensures i < |s| && s[i] == c && c !in s[..i]
  {
    if s[0] == c then 0 else 1 + IndexOf(s[1..], c)
  }

  /** `s.split(c)`: the pieces between occurrences of `c`; `""` splits into `[""]`. */
  function Split(s: string, c: char): (r: seq<string>)
    ensures |r| > 0
    decreases |s|
  {
    if c !in s then [s]
    else
      var i := IndexOf(s, c);
      [s[..i]] + Split(s[i + 1..], c)
  }

  /** A joined string contains the character only where the separator put it. */
  lemma {:induction false} JoinAvoids(parts: seq<string>, sep: string, c: char)
    requires c !in sep
    requires forall k :: 0 <= k < |parts| ==> c !in parts[k]
    ensures c !in Join(parts, sep)
    decreases |parts|
  {
    if |parts| > 1 {
      JoinAvoids(parts[1..], sep, c);
    }
  }

  /** Splitting on the one-character separator undoes the join, when no part holds that character. */
  lemma {:induction false} SplitJoin(parts: seq<string>, c: char)
    requires |parts| > 0
    requires forall k :: 0 <= k < |parts| ==> c !in parts[k]
    ensures Split(Join(parts, [c]), c) == parts
    decreases |parts|
  {
    if |parts| > 1 {
      var rest := Join(parts[1..], [c]);
      var s := parts[0] + [c] + rest;
      assert Join(parts, [c]) == s;
      assert s[|parts[0]|] == c;
      assert s[..|parts[0]|] == parts[0];
      assert IndexOf(s, c) == |parts[0]|;
      assert s[|parts[0]| + 1..] == rest;
      SplitJoin(parts[1..], c);
    }
  }

  /** The pieces that a split on `c` finds in a join with the separator `[c] + t` (such as
      `", "`): the first part as it is, every later one behind `t`. */
  function Prefixed(parts: seq<string>, t: string): (r: seq<string>)
    ensures |r| == |parts|
    ensures |parts| > 0 ==> r[0] == parts[0]
    ensures forall i :: 0 < i < |parts| ==> r[i] == t + parts[i]
  {
    if |parts| == 0 then [] else [parts[0]] + seq(|parts| - 1, i requires 0 <= i < |parts| - 1 => t + parts[i + 1])
  }

  /** Text put in front of the first part comes out in front of the join. */
  lemma JoinFirstPrefix(x: string, rest: seq<string>, t: string, sep: string)
    ensures Join([t + x] + rest, sep) == t + Join([x] + rest, sep)
  {
    if |rest| > 0 {
      assert ([t + x] + rest)[1..] == rest;
      assert ([x] + rest)[1..] == rest;
    }
  }

  /** Joining with `c` followed by `t` is joining the `t`-prefixed parts with `c` alone. */
  lemma {:induction false} JoinLongSeparator(parts: seq<string>, c: char, t: string)
    ensures Join(parts, [c] + t) == Join(Prefixed(parts, t), [c])
    decreases |parts|
  {
    if |parts| <= 1 {
      assert Prefixed(parts, t) == parts;
    } else {
      var tail := parts[1..];
      JoinLongSeparator(tail, c, t);
      var p := Prefixed(parts, t);
      var q := Prefixed(tail, t);
      assert p[1..] == [t + parts[1]] + q[1..];
      assert q == [parts[1]] + q[1..];
      JoinFirstPrefix(parts[1], q[1..], t, [c]);
      calc {
        Join(p, [c]);
        p[0] + [c] + Join(p[1..], [c]);
        parts[0] + [c] + (t + Join(q, [c]));
        parts[0] + ([c] + t) + Join(tail, [c] + t);
        Join(parts, [c] + t);
      }
    }
  }
}
