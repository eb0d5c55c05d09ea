// Lower-casing and host names, as the caches and handlers use them.
module Text {

  // ASCII part of strings.ToLower.
  function LowerChar(c: char): char {
    if 'A' <= c <= 'Z' then ((c as int) + 32) as char else c
  }

  function ToLower(s: string): (r: string)
    ensures |r| == |s|
  {
    seq(|s|, i requires 0 <= i < |s| => LowerChar(s[i]))
  }

  function UpperChar(c: char): char {
    if 'a' <= c <= 'z' then ((c as int) - 32) as char else c
  }

  function ToUpper(s: string): (r: string)
    ensures |r| == |s|
  {
    seq(|s|, i requires 0 <= i < |s| => UpperChar(s[i]))
  }

  predicate IsLower(s: string) {
    forall i :: 0 <= i < |s| ==> !('A' <= s[i] <= 'Z')
  }

  lemma ToLowerIsLower(s: string)
    ensures IsLower(ToLower(s))
  {
  }

  lemma LowerFixed(s: string)
    requires IsLower(s)
    ensures ToLower(s) == s
  {
  }

  predicate IsUpper(s: string) {
    forall i :: 0 <= i < |s| ==> !('a' <= s[i] <= 'z')
  }

  // Each case undoes the other on letters, and leaves what has none alone.
  lemma CaseRoundTrip(s: string)
    ensures ToLower(ToUpper(s)) == ToLower(s) && ToUpper(ToLower(s)) == ToUpper(s)
    ensures IsLower(s) <==> ToLower(s) == s
    ensures IsUpper(s) <==> ToUpper(s) == s
  {
    if ToLower(s) == s { assert forall i :: 0 <= i < |s| ==> s[i] == LowerChar(s[i]); }
    if ToUpper(s) == s { assert forall i :: 0 <= i < |s| ==> s[i] == UpperChar(s[i]); }
  }

  // strings.Join
  function Joined(parts: seq<string>, sep: string): string {
    if |parts| == 0 then ""
    else if |parts| == 1 then parts[0]
    else Joined(parts[..|parts| - 1], sep) + sep + parts[|parts| - 1]
  }

  // <env>.<identity>.<suffix>, lower-cased.
  function GetHost(env: string, asset: string, suffix: string): string {
    ToLower(env + "." + asset + "." + suffix)
  }

  lemma LowerConcat(a: string, b: string)
    ensures ToLower(a + b) == ToLower(a) + ToLower(b)
  {
  }

  lemma HostInParts(env: string, asset: string, suffix: string)
    ensures GetHost(env, asset, suffix) == ToLower(env) + "." + ToLower(asset) + "." + ToLower(suffix)
  {
    LowerConcat(env + "." + asset + ".", suffix);
    LowerConcat(env + "." + asset, ".");
    LowerConcat(env + ".", asset);
    LowerConcat(env, ".");
    assert ToLower(".") == ".";
  }
}
