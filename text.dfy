/**
  Character and string helpers shared by the request builders: the ASCII
  upper-case mapping behind `toUpperCase`, stripping a known prefix and
  suffix (the inverse of every one-argument string template in the client), and splitting
  a string at the first occurrence of a character (the scanner used by the
  reference decoder of the flat `<key>value</key>` format).
 */
module Text {

  datatype Option<+T> = None | Some(value: T)

  predicate IsLowerAscii(c: char) {
    'a' <= c <= 'z'
  }

  predicate IsUpperAscii(c: char) {
    'A' <= c <= 'Z'
  }

  /** `toUpperCase` restricted to one ASCII character: a–z map to A–Z, every
      other character is left as it is. */
  function UpperAscii(c: char): (u: char)
    ensures IsLowerAscii(c) ==> IsUpperAscii(u) && u as int == c as int - 32
    ensures !IsLowerAscii(c) ==> u == c
    ensures !IsLowerAscii(u)
  {
    if IsLowerAscii(c) then (c as int - 32) as char else c
  }

  /** The text strictly between `prefix` and `suffix`, when `s` starts with
      `prefix` and ends with `suffix` and the two do not overlap. */
  function Strip(prefix: string, suffix: string, s: string): (r: Option<string>)
    ensures r.Some? ==> s == prefix + r.value + suffix
    ensures r.None? ==> forall x :: s != prefix + x + suffix
  {
    if |prefix| + |suffix| <= |s| && s[..|prefix|] == prefix && s[|s| - |suffix|..] == suffix then
      var mid := s[|prefix|..|s| - |suffix|];
      assert s == prefix + mid + suffix by {
        assert s == s[..|prefix|] + mid + s[|s| - |suffix|..];
      }
      Some(mid)
    else
      assert forall x :: s != prefix + x + suffix by {
        forall x ensures s != prefix + x + suffix {
          WrappedEnds(prefix, x, suffix);
        }
      }
      None
  }

  /** A wrapped string starts with the prefix and ends with the suffix. */
  lemma WrappedEnds(prefix: string, x: string, suffix: string)
    ensures var s := prefix + x + suffix;
      |prefix| + |suffix| <= |s| && s[..|prefix|] == prefix && s[|s| - |suffix|..] == suffix
  {
  }

  /** Stripping the pieces a template put around `x` gives back `x`. */
  lemma StripWrapped(prefix: string, x: string, suffix: string)
    ensures Strip(prefix, suffix, prefix + x + suffix) == Some(x)
  {
  }

  /** Splits `s` at the first occurrence of `c`: the text before it and the
      text after it. None when `c` does not occur. */
  function SplitAt(s: string, c: char): (r: Option<(string, string)>)
    ensures r.None? <==> c !in s
    ensures r.Some? ==> c !in r.value.0 && s == r.value.0 + [c] + r.value.1
  {
    if s == [] then None
    else if s[0] == c then Some(([], s[1..]))
    else
      match SplitAt(s[1..], c)
      case None => None
      case Some(p) =>
        assert s == [s[0]] + s[1..];
        Some(([s[0]] + p.0, p.1))
  }

  /** Splitting at `c` finds exactly the first occurrence. */
  lemma {:induction false} SplitAtFirst(x: string, c: char, y: string)
    requires c !in x
    ensures SplitAt(x + [c] + y, c) == Some((x, y))
  {
    if x != [] {
      SplitAtFirst(x[1..], c, y);
      assert (x + [c] + y)[1..] == x[1..] + [c] + y;
      assert [x[0]] + x[1..] == x;
    }
  }
}
