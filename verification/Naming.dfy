/** Environment variable names, computed twice: by the runner
    (src/runner/pkg/runner/env.go) and by the rule layer
    (systemtest/private/env.bzl). */
module Naming {
  import opened Base

  const UNDERSCORE: byte := 95

  predicate IsDigit(c: byte) {
    48 <= c <= 57
  }

  predicate IsAlnum(c: byte) {
    IsDigit(c) || 65 <= c <= 90 || 97 <= c <= 122
  }

  function Upper(c: byte): byte {
    if 97 <= c <= 122 then c - 32 else c
  }

  // --------------------------------------------------------------- the runner

  /** `s` without its leading run of other characters. */
  function DropRun(s: Str): (t: Str)
    ensures |t| <= |s|
    ensures t != [] ==> IsAlnum(t[0])
  {
    if s == [] || IsAlnum(s[0]) then s else DropRun(s[1..])
  }

  /** Every maximal run of characters that are not letters or digits becomes one
      underscore. A multi-byte character is such a run in itself. */
  function Collapse(s: Str): Str
    decreases |s|
  {
    if s == [] then []
    else if IsAlnum(s[0]) then [s[0]] + Collapse(s[1..])
    else [UNDERSCORE] + Collapse(DropRun(s[1..]))
  }

  function ToUpper(s: Str): (t: Str)
    ensures |t| == |s|
    ensures forall i :: 0 <= i < |s| ==> t[i] == Upper(s[i])
  {
    seq(|s|, i requires 0 <= i < |s| => Upper(s[i]))
  }

  function EnvFragment(s: Str): Str {
    ToUpper(Collapse(s))
  }

  // ------------------------------------------------------------ the rule layer

  /** The characters kept as they are: upper-case letters, digits, underscore. */
  predicate IsSafe(c: byte) {
    65 <= c <= 90 || IsDigit(c) || c == UNDERSCORE
  }

  function Sanitize(s: Str): (t: Str)
    ensures |t| == |s|
    ensures forall i :: 0 <= i < |s| ==> t[i] == if IsSafe(s[i]) then s[i] else UNDERSCORE
  {
    seq(|s|, i requires 0 <= i < |s| => if IsSafe(s[i]) then s[i] else UNDERSCORE)
  }

  /** A name that may stand for an environment variable. */
  predicate IsVariableName(s: Str) {
    s != [] && !IsDigit(s[0]) && forall i :: 0 <= i < |s| ==> IsSafe(s[i])
  }

  /** An empty name is refused. */
  function EnvPrefix(name: Str): (r: Option<Str>)
    ensures r.Some? <==> name != []
    ensures r.Some? ==> IsVariableName(r.value)
  {
    if name == [] then None
    else
      var prefix := Sanitize(ToUpper(name));
      Some(if IsDigit(prefix[0]) then [UNDERSCORE] + prefix else prefix)
  }

  // ----------------------------------------------------------------- agreement

  /** Two neighbours, neither a letter nor a digit. */
  predicate HasPair(s: Str) {
    exists i :: 0 <= i < |s| - 1 && !IsAlnum(s[i]) && !IsAlnum(s[i + 1])
  }

  lemma {:induction false} CollapseShrinks(s: Str)
    ensures |Collapse(s)| <= |s|
    ensures HasPair(s) ==> |Collapse(s)| < |s|
    decreases |s|
  {
    if s != [] {
      var rest := s[1..];
      if IsAlnum(s[0]) {
        CollapseShrinks(rest);
        if i :| 0 <= i < |s| - 1 && !IsAlnum(s[i]) && !IsAlnum(s[i + 1]) {
          assert rest[i - 1] == s[i] && rest[i] == s[i + 1];
        }
      } else {
        CollapseShrinks(DropRun(rest));
        if i :| 0 <= i < |s| - 1 && !IsAlnum(s[i]) && !IsAlnum(s[i + 1]) {
          if i > 0 && IsAlnum(s[1]) {
            assert DropRun(rest) == rest;
            assert rest[i - 1] == s[i] && rest[i] == s[i + 1];
          }
        }
      }
    }
  }

  lemma TailPair(s: Str)
    requires s != []
    ensures HasPair(s[1..]) ==> HasPair(s)
  {
    var rest := s[1..];
    if i :| 0 <= i < |rest| - 1 && !IsAlnum(rest[i]) && !IsAlnum(rest[i + 1]) {
      assert s[i + 1] == rest[i] && s[i + 1 + 1] == rest[i + 1];
    }
  }

  /** Without neighbouring separators, collapsing works character by character. */
  lemma {:induction false} CollapsePointwise(s: Str)
    requires !HasPair(s)
    ensures |Collapse(s)| == |s|
    ensures forall i :: 0 <= i < |s| ==> Collapse(s)[i] == if IsAlnum(s[i]) then s[i] else UNDERSCORE
    decreases |s|
  {
    if s != [] {
      var rest := s[1..];
      TailPair(s);
      CollapsePointwise(rest);
      if !IsAlnum(s[0]) && rest != [] {
        assert !(!IsAlnum(s[0]) && !IsAlnum(s[0 + 1]));
        assert DropRun(rest) == rest;
      }
    }
  }

  lemma {:induction false} DropRunSnoc(s: Str, c: byte)
    ensures DropRun(s + [c]) ==
              if DropRun(s) != [] || IsAlnum(c) then DropRun(s) + [c] else []
    ensures DropRun(s) != [] ==> DropRun(s)[|DropRun(s)| - 1] == s[|s| - 1]
    ensures DropRun(s) == [] && s != [] ==> !IsAlnum(s[|s| - 1])
  {
    if s == [] {
      assert s + [c] == [c] && [c][1..] == [];
    } else if !IsAlnum(s[0]) {
      assert (s + [c])[1..] == s[1..] + [c];
      DropRunSnoc(s[1..], c);
    }
  }

  /** The last character is neither a digit nor a letter. */
  predicate EndsInRun(s: Str) {
    s != [] && var c := s[|s| - 1]; !(48 <= c <= 57 || 65 <= c <= 90 || 97 <= c <= 122)
  }

  /** The same transformation as one pass from the left: a letter or digit is
      kept, and of other characters only the first of a run counts. */
  lemma {:induction false} CollapseSnoc(s: Str, c: byte)
    ensures Collapse(s + [c]) ==
              if IsAlnum(c) then Collapse(s) + [c]
              else if EndsInRun(s) then Collapse(s)
              else Collapse(s) + [UNDERSCORE]
    decreases |s|
  {
    if s == [] {
      assert s + [c] == [c] && [c][1..] == [];
    } else {
      var rest := s[1..];
      assert (s + [c])[1..] == rest + [c];
      if IsAlnum(s[0]) {
        CollapseSnoc(rest, c);
      } else {
        DropRunSnoc(rest, c);
        CollapseSnoc(DropRun(rest), c);
      }
    }
  }

  /** The runner's fragment as one pass over the name, in byte values: digits and
      upper-case letters are kept, lower-case letters lowered by 32, and of other
      characters the first of a run becomes an underscore. */
  lemma FragmentPass(s: Str, c: byte)
    ensures EnvFragment([]) == []
    ensures EnvFragment(s + [c]) ==
              EnvFragment(s) +
              if 48 <= c <= 57 || 65 <= c <= 90 then [c]
              else if 97 <= c <= 122 then [c - 32]
              else if EndsInRun(s) then []
              else [95]
  {
    CollapseSnoc(s, c);
  }

  /** What comes out has no neighbouring separators, so collapsing again changes
      nothing. */
  lemma {:induction false} CollapseClean(s: Str)
    ensures !HasPair(Collapse(s))
    ensures forall i :: 0 <= i < |Collapse(s)| ==> IsAlnum(Collapse(s)[i]) || Collapse(s)[i] == UNDERSCORE
    ensures s != [] ==> Collapse(s) != [] && (IsAlnum(Collapse(s)[0]) <==> IsAlnum(s[0]))
    ensures Collapse(Collapse(s)) == Collapse(s)
    decreases |s|
  {
    if s != [] {
      CollapseClean(if IsAlnum(s[0]) then s[1..] else DropRun(s[1..]));
      CollapsePointwise(Collapse(s));
    }
  }

  /** What the rule layer makes of one character, in byte values. */
  function PrefixByte(c: byte): byte {
    if 48 <= c <= 57 || 65 <= c <= 90 || c == 95 then c
    else if 97 <= c <= 122 then c - 32
    else 95
  }

  /** The rule layer's prefix, character by character, with an underscore put
      before a leading digit. */
  lemma PrefixExact(name: Str)
    ensures EnvPrefix(name) ==
              if name == [] then None
              else
                var each := seq(|name|, i requires 0 <= i < |name| => PrefixByte(name[i]));
                Some(if 48 <= name[0] <= 57 then [95] + each else each)
  {
    if name != [] {
      var each := seq(|name|, i requires 0 <= i < |name| => PrefixByte(name[i]));
      assert Sanitize(ToUpper(name)) == each;
    }
  }

  predicate IsAscii(s: Str) {
    forall i :: 0 <= i < |s| ==> s[i] < 128
  }

  /** On every non-empty ASCII name the two agree exactly when the name does not
      start with a digit and has no two neighbouring separators. */
  lemma NamingAgreement(name: Str)
    requires name != [] && IsAscii(name)
    ensures EnvPrefix(name) == Some(EnvFragment(name)) <==> !IsDigit(name[0]) && !HasPair(name)
  {
    var prefix := Sanitize(ToUpper(name));
    CollapseShrinks(name);
    if !HasPair(name) {
      CollapsePointwise(name);
      assert prefix == EnvFragment(name);
    }
  }
}
