/** The few JavaScript runtime behaviours the route handlers rely on: nullable
    values, string truthiness, `x || null`, first-value lookup in a FormData or
    URLSearchParams, `Boolean.prototype.toString` and `String.prototype.replace`
    with a string pattern. */
module Js {

  /** A value that may be JavaScript `null`. */
  datatype Option<+T> = None | Some(value: T)

  /** One `name=value` pair of a submitted form or of a URL's query string. */
  datatype Entry = Entry(key: string, value: string)

  /** FormData and URLSearchParams keep their pairs in the order they were appended. */
  type Form = seq<Entry>

  /** `form.get(key)`: the value of the first pair named `key`, or null. */
  function Get(form: Form, key: string): Option<string> {
    if form == [] then None
    else if form[0].key == key then Some(form[0].value)
    else Get(form[1..], key)
  }

  /** `Get` finds nothing exactly when no pair has the key, and otherwise the
      value of the first pair that has it. */
  lemma {:induction false} GetFindsFirst(form: Form, key: string)
    ensures Get(form, key).None? <==> forall i :: 0 <= i < |form| ==> form[i].key != key
    ensures Get(form, key).Some? ==>
              exists i :: 0 <= i < |form| && form[i] == Entry(key, Get(form, key).value)
                          && forall j :: 0 <= j < i ==> form[j].key != key
  {
    if form != [] && form[0].key != key {
      GetFindsFirst(form[1..], key);
      assert forall i :: 1 <= i < |form| ==> form[i] == form[1..][i - 1];
      if Get(form, key).Some? {
        var i :| 0 <= i < |form[1..]| && form[1..][i] == Entry(key, Get(form, key).value)
                 && forall j :: 0 <= j < i ==> form[1..][j].key != key;
        assert form[i + 1] == Entry(key, Get(form, key).value);
        assert forall j :: 1 <= j < i + 1 ==> form[j].key != key;
      }
    }
  }

  /** The first pair named `key` gives `form.get(key)`. */
  lemma {:induction false} GetAt(form: Form, i: nat)
    requires i < |form| && forall j :: 0 <= j < i ==> form[j].key != form[i].key
    ensures Get(form, form[i].key) == Some(form[i].value)
  {
    if i > 0 {
      assert form[1..][i - 1] == form[i];
      GetAt(form[1..], i - 1);
    }
  }

  /** A form without a pair named `key` gives null. */
  lemma {:induction false} GetAbsent(form: Form, key: string)
    requires forall j :: 0 <= j < |form| ==> form[j].key != key
    ensures Get(form, key) == None
  {
    if form != [] {
      assert forall j :: 0 <= j < |form[1..]| ==> form[1..][j] == form[j + 1];
      GetAbsent(form[1..], key);
    }
  }

  /** JavaScript truthiness of a `string | null`: null and "" are falsy, every
      other string (even " " or "0") is truthy. */
  predicate Truthy(v: Option<string>) {
    v.Some? && v.value != ""
  }

  /** `v || null` on a `string | null`. */
  function OrNull(v: Option<string>): (r: Option<string>)
    ensures r.Some? <==> Truthy(v)
    ensures r.Some? ==> r == v
  {
    if Truthy(v) then v else None
  }

  /** `b.toString()` on a boolean. */
  function BoolString(b: bool): (s: string)
    ensures (s == "true") <==> b
  {
    if b then "true" else "false"
  }

  /** `pat` occurs in `s` starting at index `i`. */
  predicate OccursAt(s: string, pat: string, i: nat) {
    i + |pat| <= |s| && s[i..i + |pat|] == pat
  }

  /** The index of the first occurrence of `pat` in `s` (`s.indexOf(pat)`), or null. */
  function IndexOf(s: string, pat: string): (r: Option<nat>)
    ensures r.Some? ==> OccursAt(s, pat, r.value)
    ensures r.Some? ==> forall j :: 0 <= j < r.value ==> !OccursAt(s, pat, j)
    ensures r.None? ==> forall j :: 0 <= j <= |s| ==> !OccursAt(s, pat, j)
    decreases |s|
  {
    if |pat| > |s| then None
    else if s[..|pat|] == pat then Some(0)
    else
      var rest := IndexOf(s[1..], pat);
      assert s[0..|pat|] == s[..|pat|];
      assert forall j :: 1 <= j <= |s| ==> (OccursAt(s, pat, j) <==> OccursAt(s[1..], pat, j - 1)) by {
        forall j | 1 <= j <= |s| ensures OccursAt(s, pat, j) <==> OccursAt(s[1..], pat, j - 1) {
          if j + |pat| <= |s| {
            assert s[1..][j - 1..j - 1 + |pat|] == s[j..j + |pat|];
          }
        }
      }
      match rest
      case None => None
      case Some(i) => Some(i + 1)
  }

  /** `s.replace(pat, rep)` with a string pattern and a replacement without `$`
      patterns: only the first occurrence is replaced, and a string without one
      is returned unchanged. */
  function ReplaceFirst(s: string, pat: string, rep: string): (r: string)
    ensures (forall j :: 0 <= j <= |s| ==> !OccursAt(s, pat, j)) ==> r == s
    ensures forall i: nat :: OccursAt(s, pat, i) && (forall j :: 0 <= j < i ==> !OccursAt(s, pat, j))
              ==> r == s[..i] + rep + s[i + |pat|..]
  {
    match IndexOf(s, pat)
    case None => s
    case Some(i) => s[..i] + rep + s[i + |pat|..]
  }
}
