/**
 * The cookie adapter the browser client is built with (lib/supabase/client.js):
 * `get` reads one cookie out of the `document.cookie` string, `set` and
 * `remove` assign fixed-format strings to `document.cookie`.
 */
module SupabaseClient {
  import opened Wrappers
  import opened Text

  const EntrySeparator := "; "
  const NameValueSeparator := "="

  /** The index of the first row that starts with `prefix`: `rows.find(row => row.startsWith(prefix))`. */
  function FindRow(rows: seq<string>, prefix: string): (r: Option<nat>)
    ensures r.Some? ==> r.value < |rows| && prefix <= rows[r.value]
    ensures r.Some? ==> forall k :: 0 <= k < r.value ==> !(prefix <= rows[k])
    ensures r.None? <==> forall k :: 0 <= k < |rows| ==> !(prefix <= rows[k])
  {
    if |rows| == 0 then None
    else if prefix <= rows[0] then Some(0)
    else match FindRow(rows[1..], prefix)
      case None => None
      case Some(k) => Some(k + 1)
  }

  /**
   * `get(name)` over the string `document.cookie` returned: split into rows
   * at `"; "`, take the first row that starts with `name + "="`, split it at
   * `"="` and return the second piece. None is `undefined`.
   */
  function Get(cookie: string, name: string): (r: Option<string>)
    ensures var rows := Split(cookie, EntrySeparator);
      r.None? <==> forall k :: 0 <= k < |rows| ==> !(name + "=" <= rows[k])
  {
    var rows := Split(cookie, EntrySeparator);
    match FindRow(rows, name + NameValueSeparator)
    case None => None
    case Some(k) =>
      var row := rows[k];
      PieceAfterName(row, name);
      Some(Split(row, NameValueSeparator)[1])
  }

  /** A row that starts with `name=` splits at `=` into at least two pieces. */
  lemma PieceAfterName(row: string, name: string)
    requires name + "=" <= row
    ensures |Split(row, NameValueSeparator)| >= 2
  {
    assert row[|name|..|name| + 1] == "=";
    assert OccursAt(row, NameValueSeparator, |name|);
  }

  /** The cookie row `name=value`. */
  function Entry(name: string, value: string): string
  {
    name + NameValueSeparator + value
  }

  /** No `;` and no `=`: a name or value that survives the cookie string's splitting. */
  predicate Plain(s: string)
  {
    forall i :: 0 <= i < |s| ==> s[i] != ';' && s[i] != '='
  }

  /**
   * Reading back a cookie string made of plain `name=value` rows: `get`
   * returns the value of the first row with that exact name, and undefined
   * when no row has it.
   */
  lemma {:induction false} GetFromEntries(names: seq<string>, values: seq<string>, name: string)
    requires |names| == |values| >= 1
    requires Plain(name) && forall k :: 0 <= k < |names| ==> Plain(names[k]) && Plain(values[k])
    ensures var cookie := Join(seq(|names|, k requires 0 <= k < |names| => Entry(names[k], values[k])), EntrySeparator);
      (name !in names ==> Get(cookie, name).None?)
      && forall k :: 0 <= k < |names| && names[k] == name && name !in names[..k] ==> Get(cookie, name) == Some(values[k])
  {
    var rows := seq(|names|, k requires 0 <= k < |names| => Entry(names[k], values[k]));
    forall k | 0 <= k < |rows| ensures forall i :: 0 <= i < |rows[k]| ==> rows[k][i] != ';' {
      EntryHasNoSemicolon(names[k], values[k]);
    }
    SplitJoin(rows, EntrySeparator);
    var cookie := Join(rows, EntrySeparator);
    assert Split(cookie, EntrySeparator) == rows;
    forall k | 0 <= k < |rows| ensures (name + "=" <= rows[k]) <==> names[k] == name {
      RowMatchesExactName(names[k], values[k], name);
    }
    forall k | 0 <= k < |names| && names[k] == name && name !in names[..k]
      ensures Get(cookie, name) == Some(values[k])
    {
      assert forall j :: 0 <= j < k ==> names[j] == names[..k][j];
      var found := FindRow(rows, name + NameValueSeparator);
      assert found == Some(k);
      ValueAfterName(name, values[k]);
    }
  }

  /** A row made of a plain name and value holds no `;`. */
  lemma EntryHasNoSemicolon(n: string, v: string)
    requires Plain(n) && Plain(v)
    ensures forall i :: 0 <= i < |Entry(n, v)| ==> Entry(n, v)[i] != ';'
  {
    var row := Entry(n, v);
    forall i | 0 <= i < |row| ensures row[i] != ';' {
      assert i < |n| ==> row[i] == n[i];
      assert |n| < i ==> row[i] == v[i - |n| - 1];
    }
  }

  /** `get` reads the value of the first row when that row has the name sought. */
  lemma GetOfFirstRow(rows: seq<string>, name: string, value: string)
    requires |rows| >= 1 && rows[0] == Entry(name, value) && Plain(name) && Plain(value)
    requires forall k, i :: 0 <= k < |rows| && 0 <= i < |rows[k]| ==> rows[k][i] != ';'
    ensures Split(Join(rows, EntrySeparator), EntrySeparator) == rows
    ensures Get(Join(rows, EntrySeparator), name) == Some(value)
  {
    SplitJoin(rows, EntrySeparator);
    assert "=" <= "=";
    assert name + "=" <= rows[0];
    ValueAfterName(name, value);
  }

  /** A plain row `n=v` starts with `name=` exactly when `n` is `name`: `ab=1` does not match `a`. */
  lemma RowMatchesExactName(n: string, v: string, name: string)
    requires Plain(n) && Plain(name)
    ensures (name + "=" <= Entry(n, v)) <==> n == name
  {
    var row := Entry(n, v);
    if name + "=" <= row {
      assert row[|n|] == '=' && (name + "=")[|name|] == '=';
      assert |n| == |name|;
      assert n == row[..|n|] == (name + "=")[..|name|] == name;
    } else {
      assert row[..|n| + 1] == n + "=";
    }
  }

  /** The value of a plain row is the whole text after `=`. */
  lemma ValueAfterName(name: string, value: string)
    requires Plain(name) && Plain(value)
    ensures |Split(Entry(name, value), NameValueSeparator)| >= 2
    ensures Split(Entry(name, value), NameValueSeparator)[1] == value
  {
    SplitJoin([name, value], NameValueSeparator);
    assert Join([name, value], NameValueSeparator) == Entry(name, value);
  }

  /** The row is cut at the next `=`: `a=b=c` gives `b`; `a=` gives the empty string. */
  lemma ValueEndsAtNextEquals()
    ensures Get("a=b=c", "a") == Some("b")
    ensures Get("a=", "a") == Some("")
    ensures Get("ab=1", "a") == None
  {
    var rows := Split("a=b=c", EntrySeparator);
    NotFoundWithoutFirstChar("a=b=c", EntrySeparator);
    SplitJoin(["a", "b", "c"], NameValueSeparator);
    assert Join(["a", "b", "c"], NameValueSeparator) == "a=b=c";
    assert "a=" <= "a=b=c";
    NotFoundWithoutFirstChar("a=", EntrySeparator);
    ValueAfterName("a", "");
    NotFoundWithoutFirstChar("ab=1", EntrySeparator);
    assert !("a=" <= "ab=1") by { assert "ab=1"[1] != "a="[1]; }
  }

  /** The options `set` receives; it ignores them. */
  datatype CookieOptions = CookieOptions(path: Option<string>, maxAge: Option<int>, domain: Option<string>,
                                         sameSite: Option<string>, secure: Option<bool>)

  /** The string `set(name, value, options)` assigns. */
  function SetString(name: string, value: string, options: CookieOptions): string
  {
    name + "=" + value + "; path=/"
  }

  /** The string `remove(name)` assigns: an empty value that expires at once. */
  function RemoveString(name: string): string
  {
    name + "=; Max-Age=0; path=/"
  }

  /** `set` ignores its options. */
  lemma SetIgnoresOptions(name: string, value: string, o1: CookieOptions, o2: CookieOptions)
    ensures SetString(name, value, o1) == SetString(name, value, o2)
  {
  }

  /**
   * The string `set` assigns has the rows `name=value` and `path=/`; `get`
   * applied to that very string finds `value`. What the browser's getter
   * later returns is not modelled.
   */
  lemma {:induction false} SetStringReadsBack(name: string, value: string, options: CookieOptions)
    requires Plain(name) && Plain(value)
    ensures Split(SetString(name, value, options), EntrySeparator) == [Entry(name, value), "path=/"]
    ensures Get(SetString(name, value, options), name) == Some(value)
  {
    EntryHasNoSemicolon(name, value);
    var rows := [Entry(name, value), "path=/"];
    assert Join(rows[1..], EntrySeparator) == "path=/";
    assert Join(rows, EntrySeparator) == Entry(name, value) + "; " + "path=/";
    assert Join(rows, EntrySeparator) == SetString(name, value, options);
    GetOfFirstRow(rows, name, value);
  }

  /**
   * The string `remove` assigns has the rows `name=`, `Max-Age=0` and
   * `path=/`; `get` applied to that very string finds the empty value. The
   * browser itself drops the cookie on `Max-Age=0`.
   */
  lemma {:induction false} RemoveStringReadsEmpty(name: string)
    requires Plain(name)
    ensures Split(RemoveString(name), EntrySeparator) == [Entry(name, ""), "Max-Age=0", "path=/"]
    ensures Get(RemoveString(name), name) == Some("")
  {
    EntryHasNoSemicolon(name, "");
    var rows := [Entry(name, ""), "Max-Age=0", "path=/"];
    assert Join(rows[2..], EntrySeparator) == "path=/";
    assert rows[1..][1..] == rows[2..];
    assert Join(rows[1..], EntrySeparator) == "Max-Age=0; path=/";
    assert Join(rows, EntrySeparator) == Entry(name, "") + "; " + "Max-Age=0; path=/";
    assert Join(rows, EntrySeparator) == RemoveString(name);
    GetOfFirstRow(rows, name, "");
  }

  /** `document.cookie` seen as the log of strings written to it. */
  class CookieDocument {
    var written: seq<string>

    constructor ()
      ensures written == []
    {
      written := [];
    }

    method Set(name: string, value: string, options: CookieOptions)
      modifies this
      ensures written == old(written) + [SetString(name, value, options)]
    {
      written := written + [SetString(name, value, options)];
    }

    method Remove(name: string)
      modifies this
      ensures written == old(written) + [RemoveString(name)]
    {
      written := written + [RemoveString(name)];
    }
  }
}
