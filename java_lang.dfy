/**
 * The few pieces of Java and azure-core behaviour the three modelled classes
 * rely on: nullable references, thrown exceptions as results, String.trim()
 * and CoreUtils.isNullOrEmpty.
 */
module JavaLang {

  /** A Java reference that may be null. */
  datatype Nullable<+T> = Null | NonNull(value: T)

  /** The outcome of a Java call: a returned value, or the exception it throws. */
  datatype Result<+T, +E> = Ok(value: T) | Err(error: E)

  /** java.lang.NullPointerException, with its message (null when none was given). */
  datatype NullPointerException = NullPointerException(message: Nullable<string>)

  /** A character that String.trim() strips: any code unit at or below U+0020. */
  predicate IsTrimmed(c: char) {
    c <= ' '
  }

  function TrimStart(s: string): (r: string)
    ensures |r| <= |s| && r == s[|s| - |r|..]
    ensures |r| > 0 ==> !IsTrimmed(r[0])
    ensures forall i :: 0 <= i < |s| - |r| ==> IsTrimmed(s[i])
  {
    if |s| > 0 && IsTrimmed(s[0]) then TrimStart(s[1..]) else s
  }

  function TrimEnd(s: string): (r: string)
    ensures |r| <= |s| && r == s[..|r|]
    ensures |r| > 0 ==> !IsTrimmed(r[|r| - 1])
    ensures forall i :: |r| <= i < |s| ==> IsTrimmed(s[i])
  {
    if |s| > 0 && IsTrimmed(s[|s| - 1]) then TrimEnd(s[..|s| - 1]) else s
  }

  /** java.lang.String.trim(): drops leading and trailing characters at or below U+0020. */
  function Trim(s: string): string {
    TrimEnd(TrimStart(s))
  }

  /** A string consisting only of characters that trim() removes (the empty string included). */
  ghost predicate IsBlank(s: string) {
    forall i :: 0 <= i < |s| ==> IsTrimmed(s[i])
  }

  lemma {:induction false} TrimStartEmptyIffBlank(s: string)
    ensures TrimStart(s) == [] <==> IsBlank(s)
  {
    if |s| > 0 && IsTrimmed(s[0]) {
      TrimStartEmptyIffBlank(s[1..]);
      assert IsBlank(s) <==> IsBlank(s[1..]) by {
        if IsBlank(s[1..]) {
          forall i | 0 <= i < |s| ensures IsTrimmed(s[i]) {
            if i > 0 { assert s[i] == s[1..][i - 1]; }
          }
        }
      }
    }
  }

  lemma {:induction false} TrimEndKeepsLeadingNonBlank(s: string)
    requires |s| > 0 && !IsTrimmed(s[0])
    ensures |TrimEnd(s)| > 0
  {
    if |s| > 1 && IsTrimmed(s[|s| - 1]) {
      TrimEndKeepsLeadingNonBlank(s[..|s| - 1]);
    }
  }

  /** `s.trim().isEmpty()` holds exactly when every character of `s` is one trim() strips. */
  lemma TrimEmptyIffBlank(s: string)
    ensures Trim(s) == [] <==> IsBlank(s)
  {
    TrimStartEmptyIffBlank(s);
    var t := TrimStart(s);
    if t != [] {
      TrimEndKeepsLeadingNonBlank(t);
    }
  }

  /** The guard `s != null && !s.trim().isEmpty()`: a string that is present and not blank. */
  function IsSetAndNotBlank(s: Nullable<string>): (r: bool)
    ensures r <==> s.NonNull? && !IsBlank(s.value)
  {
    if s.Null? then false
    else
      TrimEmptyIffBlank(s.value);
      Trim(s.value) != []
  }

  /** CoreUtils.isNullOrEmpty(String): null or of length zero; blank strings are NOT empty. */
  function IsNullOrEmpty(s: Nullable<string>): (r: bool)
    ensures r <==> s == Null || s == NonNull("")
  {
    s.Null? || |s.value| == 0
  }
}
