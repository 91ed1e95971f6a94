/**
 * The second tracking utility file: the configured pixel identifier,
 * the Facebook click and browser identifiers read from the cookie
 * string, and a Lead event sent without a try/catch.
 */
module FPixel {
  import opened Wrappers
  import opened JsValues
  import opened JsStrings
  import opened Browser

  const DefaultPixelId: string := "748336294208189"

  /** `FB_PIXEL_ID`: `NEXT_PUBLIC_META_PIXEL_ID` when it is set and non-empty, else the built-in identifier. */
  function FbPixelId(env: map<string, string>): (id: string)
    ensures id != ""
    ensures "NEXT_PUBLIC_META_PIXEL_ID" in env && env["NEXT_PUBLIC_META_PIXEL_ID"] != "" ==>
      id == env["NEXT_PUBLIC_META_PIXEL_ID"]
    ensures "NEXT_PUBLIC_META_PIXEL_ID" !in env || env["NEXT_PUBLIC_META_PIXEL_ID"] == "" ==>
      id == DefaultPixelId
  {
    OrElse(Lookup(env, "NEXT_PUBLIC_META_PIXEL_ID"), DefaultPixelId)
  }

  /** `rows.find((row) => row.startsWith(prefix))`, given as the index of the row found. */
  function FindRow(rows: seq<string>, prefix: string): (r: Option<nat>)
    ensures r.Some? ==> r.value < |rows| && StartsWith(rows[r.value], prefix)
    ensures r.Some? ==> forall j :: 0 <= j < r.value ==> !StartsWith(rows[j], prefix)
    ensures r.None? ==> forall j :: 0 <= j < |rows| ==> !StartsWith(rows[j], prefix)
  {
    if rows == [] then None
    else if StartsWith(rows[0], prefix) then Some(0)
    else
      match FindRow(rows[1..], prefix)
      case None =>
        assert forall j :: 1 <= j < |rows| ==> rows[j] == rows[1..][j - 1];
        None
      case Some(k) =>
        assert forall j :: 1 <= j <= k ==> rows[j] == rows[1..][j - 1];
        Some(k + 1)
  }

  /** `"="` occurs at `j` exactly where the character at `j` is `=`. */
  lemma EqualsOccursAt(s: string, j: int)
    ensures OccursAt(s, "=", j) <==> 0 <= j < |s| && s[j] == '='
  {
    if 0 <= j < |s| {
      assert s[j..j + 1] == [s[j]];
    }
  }

  /** In `a + b`, where `a` has no `=` and `b` is empty or starts with one, the first `=` is the head of `b`. */
  lemma FirstEquals(a: string, b: string)
    requires '=' !in a
    requires b == "" || b[0] == '='
    ensures b == "" ==> IndexOf(a + b, "=").None?
    ensures b != "" ==> IndexOf(a + b, "=") == Some(|a|)
  {
    var s := a + b;
    forall j | 0 <= j < |a|
      ensures !OccursAt(s, "=", j)
    {
      EqualsOccursAt(s, j);
    }
    if b == "" {
      assert s == a;
      forall j | 0 <= j <= |s|
        ensures !OccursAt(s, "=", j)
      {
        EqualsOccursAt(s, j);
      }
    } else {
      EqualsOccursAt(s, |a|);
    }
  }

  /** A row with an `=` splits on `=` into at least two pieces, none of which holds an `=`. */
  lemma SplitOnEquals(row: string)
    requires '=' in row
    ensures |Split(row, "=")| >= 2
    ensures forall k :: 0 <= k < |Split(row, "=")| ==> '=' !in Split(row, "=")[k]
  {
    var i :| 0 <= i < |row| && row[i] == '=';
    EqualsOccursAt(row, i);
    SplitHead(row, "=");
    SplitPiecesFree(row, "=");
    forall k, j | 0 <= k < |Split(row, "=")| && 0 <= j < |Split(row, "=")[k]|
      ensures Split(row, "=")[k][j] != '='
    {
      EqualsOccursAt(Split(row, "=")[k], j);
    }
  }

  /** `row.split("=")[1]`: the text between the first and the second `=` of `row`. */
  function SecondField(row: string): (v: string)
    requires '=' in row
    ensures '=' !in v
  {
    SplitOnEquals(row);
    Split(row, "=")[1]
  }

  /**
   * The value of the first cookie named `key` in `document.cookie`: the
   * cookie string split on `"; "`, the first row starting with
   * `key + "="`, and the text between that row's first and second `=`.
   * `None` when there is no document or no such row.
   */
  function CookieValue(document: Option<string>, key: string): (r: Option<string>)
    ensures document.None? ==> r.None?
    ensures r.Some? ==> '=' !in r.value
    ensures document.Some? ==>
      (r.None? <==> forall row :: row in Split(document.value, "; ") ==> !StartsWith(row, key + "="))
  {
    if document.None? then None
    else
      var rows := Split(document.value, "; ");
      match FindRow(rows, key + "=")
      case None => None
      case Some(k) =>
        assert rows[k][|key|] == (key + "=")[|key|];
        Some(SecondField(rows[k]))
  }

  /** `getFbc()`: the `_fbc` cookie's value. */
  function GetFbc(document: Option<string>): (r: Option<string>)
    ensures document.None? ==> r.None?
    ensures r.Some? ==> '=' !in r.value
    ensures document.Some? ==>
      (r.None? <==> forall row :: row in Split(document.value, "; ") ==> !StartsWith(row, "_fbc="))
  {
    CookieValue(document, "_fbc")
  }

  /** `getFbp()`: the `_fbp` cookie's value. */
  function GetFbp(document: Option<string>): (r: Option<string>)
    ensures document.None? ==> r.None?
    ensures r.Some? ==> '=' !in r.value
    ensures document.Some? ==>
      (r.None? <==> forall row :: row in Split(document.value, "; ") ==> !StartsWith(row, "_fbp="))
  {
    CookieValue(document, "_fbp")
  }

  /** The first piece of `value + rest`, split on `=`, is `value`. */
  lemma FirstPieceOf(value: string, rest: string)
    requires '=' !in value
    requires rest == "" || rest[0] == '='
    ensures Split(value + rest, "=")[0] == value
  {
    FirstEquals(value, rest);
    SplitHead(value + rest, "=");
    assert (value + rest)[..|value|] == value;
  }

  /** The second piece of `key=tail`, split on `=`, is the first piece of `tail`. */
  lemma SecondPieceOf(key: string, tail: string)
    requires '=' !in key
    ensures '=' in key + "=" + tail
    ensures SecondField(key + "=" + tail) == Split(tail, "=")[0]
  {
    var row := key + "=" + tail;
    assert row[|key|] == '=';
    assert row == key + ("=" + tail);
    FirstEquals(key, "=" + tail);
    SplitHead(row, "=");
    assert row[|key| + 1..] == tail;
  }

  /**
   * A row `key=value` followed by nothing or by a further `=...` yields
   * `value`: the whole value when it has no `=`, and otherwise the value
   * truncated at its first `=`.
   */
  lemma SecondFieldOf(key: string, value: string, rest: string)
    requires '=' !in key && '=' !in value
    requires rest == "" || rest[0] == '='
    ensures SecondField(key + "=" + value + rest) == value
  {
    assert key + "=" + value + rest == key + "=" + (value + rest);
    SecondPieceOf(key, value + rest);
    FirstPieceOf(value, rest);
  }

  /**
   * The cookie value is read from the first row that starts with
   * `key + "="`, whatever the later rows hold.
   */
  lemma {:induction false} CookieValueOfFirstRow(cookie: string, key: string, k: nat, value: string, rest: string)
    requires '=' !in key && '=' !in value
    requires rest == "" || rest[0] == '='
    requires k < |Split(cookie, "; ")| && Split(cookie, "; ")[k] == key + "=" + value + rest
    requires forall j :: 0 <= j < k ==> !StartsWith(Split(cookie, "; ")[j], key + "=")
    ensures CookieValue(Some(cookie), key) == Some(value)
  {
    var rows := Split(cookie, "; ");
    assert (key + "=" + value + rest)[..|key + "="|] == key + "=";
    var found := FindRow(rows, key + "=");
    assert found == Some(k);
    SecondFieldOf(key, value, rest);
  }

  /** The `_fbc=` row alone gives the empty value, not `null`. */
  lemma EmptyFbc(cookie: string, k: nat)
    requires k < |Split(cookie, "; ")| && Split(cookie, "; ")[k] == "_fbc="
    requires forall j :: 0 <= j < k ==> !StartsWith(Split(cookie, "; ")[j], "_fbc=")
    ensures GetFbc(Some(cookie)) == Some("")
  {
    assert "_fbc" + "=" + "" + "" == "_fbc=";
    CookieValueOfFirstRow(cookie, "_fbc", k, "", "");
  }

  /** Sent Lead payload: three fixed keys and none of the form's other fields. */
  function LeadFormPayload(formData: map<string, string>): (p: Payload)
    ensures p.Keys == {"content_name", "content_category", "status"}
    ensures p["content_name"] == Str("Contact Form Lead")
    ensures p["status"] == Str("completed")
    ensures "service" in formData && formData["service"] != "" ==>
      p["content_category"] == Str(formData["service"])
    ensures "service" !in formData || formData["service"] == "" ==>
      p["content_category"] == Str("general")
  {
    map["content_name" := Str("Contact Form Lead"),
        "content_category" := Str(OrElse(Lookup(formData, "service"), "general")),
        "status" := Str("completed")]
  }

  /**
   * `trackLead(formData)`: one `("track", "Lead", payload)` call when the
   * guard holds. There is no try/catch: an exception thrown by the handle
   * reaches the caller (`threw`).
   */
  method TrackLead(w: Window, formData: map<string, string>) returns (threw: bool)
    modifies w`calls
    ensures !w.Ready() ==> w.calls == old(w.calls) && !threw
    ensures w.Ready() ==>
      var c := Call("track", "Lead", Some(LeadFormPayload(formData)));
      w.calls == old(w.calls) + [c] && (threw <==> c in w.failsOn)
  {
    threw := false;
    if w.hasWindow && w.handlePresent {
      threw := w.Invoke(Call("track", "Lead", Some(LeadFormPayload(formData))));
    }
  }
}
