/**
 * The text the two command-line front ends print: the progress bar of the
 * current 30-second window and the table of applications.  Both binaries
 * compute them the same way.
 */
module Display {
  import opened Entities
  import opened Foreign

  /** The progress bar's width in characters, between its brackets. */
  const BAR_WIDTH: nat := 60
  /** The TOTP window in milliseconds. */
  const WINDOW_MS: nat := 30000

  /** `as_secs() * 1000 + subsec_nanos() / 1_000_000`. */
  function MillisSinceEpoch(secs: nat, nanos: nat): (ms: nat)
    requires nanos < 1000000000
    ensures ms / 1000 == secs && ms % 1000 == nanos / 1000000
  {
    secs * 1000 + nanos / 1000000
  }

  lemma ScaleToBar(step: nat)
    requires step < WINDOW_MS
    ensures step * BAR_WIDTH / WINDOW_MS == step / 500
  {
    var q, r := step / 500, step % 500;
    assert step * 60 == q * 30000 + r * 60;
    assert 0 <= r * 60 < 30000;
  }

  /**
   * The number of `=` in the bar: `(ms % 30000) * 60 / 30000`, which is the
   * number of whole half-seconds elapsed in the window.
   */
  function ProgressIndex(ms: nat): (idx: nat)
    ensures idx < BAR_WIDTH
    ensures idx == (ms % WINDOW_MS) / 500
  {
    var step := ms % WINDOW_MS;
    ScaleToBar(step);
    step * BAR_WIDTH / WINDOW_MS
  }

  /** `c.repeat(n)`. */
  function Repeat(c: char, n: nat): (s: string)
    ensures |s| == n && forall i | 0 <= i < n :: s[i] == c
  {
    if n == 0 then [] else Repeat(c, n - 1) + [c]
  }

  /** `{:<width$}` on a string: padded with spaces to at least `width` characters, never cut. */
  function PadRight(s: string, width: nat): (r: string)
    ensures |r| == if |s| < width then width else |s|
    ensures r[..|s|] == s
    ensures forall i | |s| <= i < |r| :: r[i] == ' '
  {
    if |s| < width then s + Repeat(' ', width - |s|) else s
  }

  /**
   * `print_progress_bar`: `[`, one `=` per elapsed half-second, spaces up to
   * 60 characters, `]`.
   */
  function ProgressBar(ms: nat): (bar: string)
    ensures |bar| == BAR_WIDTH + 2
    ensures bar[0] == '[' && bar[BAR_WIDTH + 1] == ']'
    ensures forall i | 1 <= i <= BAR_WIDTH :: bar[i] == if i <= ProgressIndex(ms) then '=' else ' '
  {
    var filled := PadRight(Repeat('=', ProgressIndex(ms)), BAR_WIDTH);
    assert forall i | 0 <= i < ProgressIndex(ms) :: filled[i] == filled[..ProgressIndex(ms)][i];
    "[" + filled + "]"
  }

  function Max(a: nat, b: nat): nat
  {
    if a < b then b else a
  }

  /**
   * The column-width fold `vals.iter().fold(init, |max, v| max(max, v.len()))`:
   * the largest of `init` and the byte lengths of the values.
   */
  function MaxLength(init: nat, vals: seq<string>): (m: nat)
    ensures init <= m
    ensures forall i | 0 <= i < |vals| :: Utf8Len(vals[i]) <= m
    ensures m == init || exists i | 0 <= i < |vals| :: Utf8Len(vals[i]) == m
    decreases |vals|
  {
    if vals == [] then init
    else
      var m := MaxLength(Max(init, Utf8Len(vals[0])), vals[1..]);
      assert forall i | 1 <= i < |vals| :: vals[i] == vals[1..][i - 1];
      m
  }

  /** The column headers, and their byte lengths `"name".len()`, `"key".len()`, `"username".len()`. */
  const NAME_HEADER: string := "name"
  const KEY_HEADER: string := "key"
  const USERNAME_HEADER: string := "username"
  const NAME_HEADER_LEN: nat := 4
  const KEY_HEADER_LEN: nat := 3
  const USERNAME_HEADER_LEN: nat := 8

  /** `"+-{}-+-{}-+-{}-+"` with each column's width of `-`. */
  function Delimiter(nameWidth: nat, keyWidth: nat, usernameWidth: nat): (d: string)
    ensures |d| == nameWidth + keyWidth + usernameWidth + 10
    ensures forall i | 0 <= i < |d| :: d[i] == '+' || d[i] == '-'
    ensures d[0] == '+' && d[|d| - 1] == '+'
  {
    "+-" + Repeat('-', nameWidth) + "-+-" + Repeat('-', keyWidth) + "-+-" + Repeat('-', usernameWidth) + "-+"
  }

  /** `"| {name:<nw$} | {key: <kw$} | {username: <uw$} |"`. */
  function Row(name: string, key: string, username: string, nameWidth: nat, keyWidth: nat, usernameWidth: nat): (row: string)
    ensures |row| == Max(|name|, nameWidth) + Max(|key|, keyWidth) + Max(|username|, usernameWidth) + 10
  {
    "| " + PadRight(name, nameWidth) + " | " + PadRight(key, keyWidth) + " | " + PadRight(username, usernameWidth) + " |"
  }

  /** The three column widths of a listing. */
  datatype Widths = Widths(name: nat, key: nat, username: nat)

  /**
   * The three `fold`s: each width is the largest of its header's length
   * and the byte lengths of the values in its column.
   */
  function ColumnWidths(names: seq<string>, keys: seq<string>, usernames: seq<string>): (w: Widths)
    ensures NAME_HEADER_LEN <= w.name && forall i | 0 <= i < |names| :: Utf8Len(names[i]) <= w.name
    ensures KEY_HEADER_LEN <= w.key && forall i | 0 <= i < |keys| :: Utf8Len(keys[i]) <= w.key
    ensures USERNAME_HEADER_LEN <= w.username && forall i | 0 <= i < |usernames| :: Utf8Len(usernames[i]) <= w.username
    ensures w.name == NAME_HEADER_LEN || exists i | 0 <= i < |names| :: Utf8Len(names[i]) == w.name
    ensures w.key == KEY_HEADER_LEN || exists i | 0 <= i < |keys| :: Utf8Len(keys[i]) == w.key
    ensures w.username == USERNAME_HEADER_LEN || exists i | 0 <= i < |usernames| :: Utf8Len(usernames[i]) == w.username
  {
    Widths(MaxLength(NAME_HEADER_LEN, names), MaxLength(KEY_HEADER_LEN, keys),
           MaxLength(USERNAME_HEADER_LEN, usernames))
  }

  /** One row per application, in column order. */
  function Rows(names: seq<string>, keys: seq<string>, usernames: seq<string>, w: Widths): (rows: seq<string>)
    requires |names| == |keys| == |usernames|
  {
    seq(|names|, i requires 0 <= i < |names| => Row(names[i], keys[i], usernames[i], w.name, w.key, w.username))
  }

  /** The header block: delimiter, header row, delimiter. */
  function Header(w: Widths): (h: seq<string>)
    ensures |h| == 3
  {
    var d := Delimiter(w.name, w.key, w.username);
    [d, Row(NAME_HEADER, KEY_HEADER, USERNAME_HEADER, w.name, w.key, w.username), d]
  }

  /**
   * The printed table: delimiter, header, delimiter, one row per
   * application, delimiter.
   */
  function Table(names: seq<string>, keys: seq<string>, usernames: seq<string>): (t: seq<string>)
    requires |names| == |keys| == |usernames|
    ensures |t| == |names| + 4
    ensures var w := ColumnWidths(names, keys, usernames); var d := Delimiter(w.name, w.key, w.username);
      t[0] == d && t[2] == d && t[|t| - 1] == d
    ensures var w := ColumnWidths(names, keys, usernames);
      t[1] == Row(NAME_HEADER, KEY_HEADER, USERNAME_HEADER, w.name, w.key, w.username)
  {
    var w := ColumnWidths(names, keys, usernames);
    Header(w) + Rows(names, keys, usernames, w) + [Delimiter(w.name, w.key, w.username)]
  }

  /** The table's width: the delimiter's length. */
  function TableWidth(w: Widths): nat
  {
    w.name + w.key + w.username + 10
  }

  /** Values that fit their columns give a row exactly as wide as the delimiter. */
  lemma RowFits(name: string, key: string, username: string, w: Widths)
    requires |name| <= w.name && |key| <= w.key && |username| <= w.username
    ensures |Row(name, key, username, w.name, w.key, w.username)| == TableWidth(w)
  {
  }

  /** The header fits any widths at least the header lengths. */
  lemma HeaderFits(w: Widths)
    requires NAME_HEADER_LEN <= w.name && KEY_HEADER_LEN <= w.key && USERNAME_HEADER_LEN <= w.username
    ensures forall i | 0 <= i < |Header(w)| :: |Header(w)[i]| == TableWidth(w)
  {
  }

  /** Rows of values that fit their columns are all as wide as the delimiter. */
  lemma RowsFit(names: seq<string>, keys: seq<string>, usernames: seq<string>, w: Widths)
    requires |names| == |keys| == |usernames|
    requires forall i | 0 <= i < |names| :: |names[i]| <= w.name && |keys[i]| <= w.key && |usernames[i]| <= w.username
    ensures forall i | 0 <= i < |names| :: |Rows(names, keys, usernames, w)[i]| == TableWidth(w)
  {
    forall i | 0 <= i < |names|
      ensures |Rows(names, keys, usernames, w)[i]| == TableWidth(w)
    {
      RowFits(names[i], keys[i], usernames[i], w);
    }
  }

  /** Header block, rows and closing line of one common width make lines of that width. */
  lemma StackedLines(header: seq<string>, rows: seq<string>, closing: string, width: nat)
    requires forall i | 0 <= i < |header| :: |header[i]| == width
    requires forall i | 0 <= i < |rows| :: |rows[i]| == width
    requires |closing| == width
    ensures forall i | 0 <= i < |header + rows + [closing]| :: |(header + rows + [closing])[i]| == width
    ensures forall i | 0 <= i < |rows| :: (header + rows + [closing])[|header| + i] == rows[i]
  {
    var t := header + rows + [closing];
    forall i | 0 <= i < |t|
      ensures |t[i]| == width
    {
      if i < |header| {
        assert t[i] == header[i];
      } else if i < |header| + |rows| {
        assert t[i] == rows[i - |header|];
      }
    }
  }

  /** A table laid out with widths that every value fits is rectangular, with row i on line i + 3. */
  lemma LayoutFits(names: seq<string>, keys: seq<string>, usernames: seq<string>, w: Widths, t: seq<string>)
    requires |names| == |keys| == |usernames|
    requires NAME_HEADER_LEN <= w.name && KEY_HEADER_LEN <= w.key && USERNAME_HEADER_LEN <= w.username
    requires forall i | 0 <= i < |names| :: |names[i]| <= w.name && |keys[i]| <= w.key && |usernames[i]| <= w.username
    requires t == Header(w) + Rows(names, keys, usernames, w) + [Delimiter(w.name, w.key, w.username)]
    ensures |t| == |names| + 4
    ensures forall i | 0 <= i < |t| :: |t[i]| == TableWidth(w)
    ensures forall i | 0 <= i < |names| :: t[i + 3] == Row(names[i], keys[i], usernames[i], w.name, w.key, w.username)
  {
    var header, rows, closing := Header(w), Rows(names, keys, usernames, w), Delimiter(w.name, w.key, w.username);
    HeaderFits(w);
    RowsFit(names, keys, usernames, w);
    StackedLines(header, rows, closing, TableWidth(w));
    forall i | 0 <= i < |names|
      ensures t[i + 3] == Row(names[i], keys[i], usernames[i], w.name, w.key, w.username)
    {
      assert t[|header| + i] == rows[i];
    }
  }

  /** The computed widths hold every value: a string's byte length is at least its character count. */
  lemma ValuesFitWidths(names: seq<string>, keys: seq<string>, usernames: seq<string>)
    requires |names| == |keys| == |usernames|
    ensures var w := ColumnWidths(names, keys, usernames);
      forall i | 0 <= i < |names| :: |names[i]| <= w.name && |keys[i]| <= w.key && |usernames[i]| <= w.username
  {
    var w := ColumnWidths(names, keys, usernames);
    forall i | 0 <= i < |names|
      ensures |names[i]| <= w.name && |keys[i]| <= w.key && |usernames[i]| <= w.username
    {
      assert Utf8Len(names[i]) <= w.name;
      assert Utf8Len(keys[i]) <= w.key;
      assert Utf8Len(usernames[i]) <= w.username;
    }
  }

  /**
   * Every line of the table, header and rows included, is exactly as wide
   * as the delimiter: each width is at least its header's and every value's
   * length, so padding never overflows a column.
   */
  lemma TableIsRectangular(names: seq<string>, keys: seq<string>, usernames: seq<string>)
    requires |names| == |keys| == |usernames|
    ensures var w, t := ColumnWidths(names, keys, usernames), Table(names, keys, usernames);
      && |t| == |names| + 4
      && (forall i | 0 <= i < |t| :: |t[i]| == TableWidth(w))
      && (forall i | 0 <= i < |names| :: t[i + 3] == Row(names[i], keys[i], usernames[i], w.name, w.key, w.username))
  {
    var w := ColumnWidths(names, keys, usernames);
    ValuesFitWidths(names, keys, usernames);
    LayoutFits(names, keys, usernames, w, Table(names, keys, usernames));
  }

  /** The column of one field, for the entries under `order`. */
  function NameColumn(apps: Applications, order: seq<string>): (col: seq<string>)
    requires forall i | 0 <= i < |order| :: order[i] in apps
    ensures |col| == |order| && forall i | 0 <= i < |order| :: col[i] == apps[order[i]].name
  {
    seq(|order|, i requires 0 <= i < |order| => apps[order[i]].name)
  }

  function SecretColumn(apps: Applications, order: seq<string>): (col: seq<string>)
    requires forall i | 0 <= i < |order| :: order[i] in apps
    ensures |col| == |order| && forall i | 0 <= i < |order| :: col[i] == apps[order[i]].secret
  {
    seq(|order|, i requires 0 <= i < |order| => apps[order[i]].secret)
  }

  function UsernameColumn(apps: Applications, order: seq<string>): (col: seq<string>)
    requires forall i | 0 <= i < |order| :: order[i] in apps
    ensures |col| == |order| && forall i | 0 <= i < |order| :: col[i] == apps[order[i]].username
  {
    seq(|order|, i requires 0 <= i < |order| => apps[order[i]].username)
  }

  /** `order` lists every key of `apps` exactly once. */
  ghost predicate Enumerates(order: seq<string>, apps: Applications)
  {
    && |order| == |apps|
    && (forall k :: k in order <==> k in apps)
    && (forall i, j | 0 <= i < j < |order| :: order[i] != order[j])
  }

  /**
   * The loop `for application in apps.values()` that pushes each entry's
   * name, secret and username onto the three columns and counts them.  The
   * map's iteration order is unspecified, so each step takes any key not
   * yet visited; `order` records the order taken.
   */
  method CollectColumns(apps: Applications) returns (names: seq<string>, keys: seq<string>, usernames: seq<string>, count: nat, ghost order: seq<string>)
    ensures Enumerates(order, apps) && count == |apps|
    ensures forall i | 0 <= i < |order| :: order[i] in apps
    ensures names == NameColumn(apps, order) && keys == SecretColumn(apps, order)
    ensures usernames == UsernameColumn(apps, order)
  {
    names, keys, usernames, count, order := [], [], [], 0, [];
    var unvisited := apps.Keys;
    while unvisited != {}
      invariant unvisited <= apps.Keys
      invariant count == |order| == |names| == |keys| == |usernames|
      invariant count + |unvisited| == |apps|
      invariant forall k :: k in order <==> k in apps && k !in unvisited
      invariant forall i, j | 0 <= i < j < |order| :: order[i] != order[j]
      invariant forall i | 0 <= i < count :: order[i] in apps && names[i] == apps[order[i]].name
                  && keys[i] == apps[order[i]].secret && usernames[i] == apps[order[i]].username
      decreases |unvisited|
    {
      var k :| k in unvisited;
      var application := apps[k];
      count := count + 1;
      names := names + [application.name];
      keys := keys + [application.secret];
      usernames := usernames + [application.username];
      order := order + [k];
      unvisited := unvisited - {k};
    }
  }

  /** The loop `for i in 0..applications_count`: one row per application, in column order. */
  method AppendRows(header: seq<string>, names: seq<string>, keys: seq<string>, usernames: seq<string>, count: nat, w: Widths) returns (lines: seq<string>)
    requires |names| == count && |keys| == count && |usernames| == count
    ensures lines == header + Rows(names, keys, usernames, w)
  {
    lines := header;
    for i := 0 to count
      invariant |lines| == |header| + i && lines[..|header|] == header
      invariant forall k | 0 <= k < i :: lines[|header| + k] == Row(names[k], keys[k], usernames[k], w.name, w.key, w.username)
    {
      lines := lines + [Row(names[i], keys[i], usernames[i], w.name, w.key, w.username)];
    }
    assert lines == header + Rows(names, keys, usernames, w);
  }

  /** The table `show_applications_list` prints for the collected columns. */
  method RenderTable(names: seq<string>, keys: seq<string>, usernames: seq<string>, count: nat) returns (lines: seq<string>)
    requires |names| == count && |keys| == count && |usernames| == count
    ensures lines == Table(names, keys, usernames)
  {
    var w := ColumnWidths(names, keys, usernames);
    var delimiter := Delimiter(w.name, w.key, w.username);
    lines := AppendRows([delimiter, Row(NAME_HEADER, KEY_HEADER, USERNAME_HEADER, w.name, w.key, w.username), delimiter],
                        names, keys, usernames, count, w);
    lines := lines + [delimiter];
  }
}
