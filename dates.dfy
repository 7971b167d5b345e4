/** `formatDateTime`: the rewriting a date string undergoes before it is
    parsed, and the fallbacks to the empty string. Parsing (`parseISO` with
    `isValid`) and formatting in the Asia/Tokyo zone are parameters: `parse`
    gives the instant in milliseconds or `None` for an invalid date, `format`
    gives the text or `None` when formatting throws. */
module Dates {
  import opened Common
  import opened Ordering

  /** The value handed to `formatDateTime`. */
  datatype DateInput =
    | Null
    | Undefined
    | Text(text: string)
    | DateValue(instant: Option<int>)   // a Date object; None when it is an Invalid Date
    | OtherValue                        // anything else the untyped caller may pass

  /** `s.replace(from, to)` with a one-character pattern: only the first
      occurrence is replaced. */
  function ReplaceFirst(s: string, from: char, to: char): (r: string)
    ensures |r| == |s|
    ensures from !in s ==> r == s
    ensures from in s ==> exists k :: 0 <= k < |s| && s[k] == from && from !in s[..k]
                                       && r == s[..k] + [to] + s[k + 1..]
  {
    match FindFirst(s, (c: char) => c == from)
    case None => s
    case Some(k) =>
      assert from !in s[..k] by {
        forall j | 0 <= j < k ensures s[..k][j] != from { }
      }
      s[..k] + [to] + s[k + 1..]
  }

  /** The shape `YYYY-MM-DD HH:MM:SS` of a timestamp as the store writes it. */
  predicate StoreTimestamp(s: string) {
    && |s| == 19
    && s[4] == '-' && s[7] == '-' && s[10] == ' ' && s[13] == ':' && s[16] == ':'
    && forall i :: 0 <= i < 19 && i !in {4, 7, 10, 13, 16} ==> '0' <= s[i] <= '9'
  }

  /** The rewriting `formatDateTime` applies to a string before parsing it: a
      19-character string with a space at index 10 gets its first space turned
      into `T` and a `Z` appended; otherwise a string holding a `T` but not
      ending in `Z` gets a `Z` appended; any other string is left alone. */
  function Normalize(s: string): (r: string)
    ensures |s| == 19 && s[10] == ' ' ==>
      |r| == 20 && r[19] == 'Z' && r[..19] == ReplaceFirst(s, ' ', 'T')
    ensures !(|s| == 19 && s[10] == ' ') && 'T' in s && !EndsWith(s, "Z") ==> r == s + "Z"
    ensures !(|s| == 19 && s[10] == ' ') && ('T' !in s || EndsWith(s, "Z")) ==> r == s
    ensures EndsWith(r, "Z") || r == s
  {
    if |s| == 19 && s[10] == ' ' then ReplaceFirst(s, ' ', 'T') + "Z"
    else if !EndsWith(s, "Z") && 'T' in s then s + "Z"
    else s
  }

  /** A store timestamp becomes the ISO form with a `T` between date and time
      and an explicit `Z`, and that form is left alone by a second pass. */
  lemma NormalizeStoreTimestamp(s: string)
    requires StoreTimestamp(s)
    ensures Normalize(s) == s[..10] + "T" + s[11..] + "Z"
    ensures Normalize(Normalize(s)) == Normalize(s)
  {
    assert ' ' !in s[..10] by {
      forall i | 0 <= i < 10 ensures s[..10][i] != ' ' {
        assert i !in {4, 7, 10, 13, 16} ==> '0' <= s[i] <= '9';
      }
    }
    assert ' ' in s by { assert s[10] == ' '; }
    var r := Normalize(s);
    assert r[..19] == s[..10] + "T" + s[11..];
    assert r == r[..19] + "Z";
    assert r[10] == 'T';
    assert 'T' in r;
    assert EndsWith(r, "Z");
  }

  /** `formatDateTime`. */
  function FormatDateTime(input: DateInput, parse: string -> Option<int>,
                          format: int -> Option<string>): (r: string)
    ensures input == Null || input == Undefined || input == Text("") || input == OtherValue ==> r == ""
    ensures input.Text? && input.text != "" && parse(Normalize(input.text)).None? ==> r == ""
    ensures input == DateValue(None) ==> r == ""
    ensures r != "" ==> exists t :: format(t) == Some(r)
    ensures input.Text? && input.text != "" && parse(Normalize(input.text)).Some?
              && format(parse(Normalize(input.text)).value).Some? ==>
      r == format(parse(Normalize(input.text)).value).value
    ensures input.Text? && input.text != "" && parse(Normalize(input.text)).Some?
              && format(parse(Normalize(input.text)).value).None? ==>
      r == ""
    ensures input.DateValue? && input.instant.Some? && format(input.instant.value).Some? ==>
      r == format(input.instant.value).value
    ensures input.DateValue? && input.instant.Some? && format(input.instant.value).None? ==> r == ""
  {
    match input
    case Null => ""
    case Undefined => ""
    case OtherValue => ""
    case Text(s) =>
      if s == "" then "" else FormatInstant(parse(Normalize(s)), format)
    case DateValue(d) => FormatInstant(d, format)
  }

  /** The tail of `formatDateTime`: an invalid date, or formatting that throws,
      gives the empty string. */
  function FormatInstant(d: Option<int>, format: int -> Option<string>): (r: string)
    ensures d.None? ==> r == ""
    ensures d.Some? && format(d.value).None? ==> r == ""
    ensures d.Some? && format(d.value).Some? ==> r == format(d.value).value
  {
    match d
    case None => ""
    case Some(t) =>
      match format(t)
      case None => ""
      case Some(text) => text
  }
}
