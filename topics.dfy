/**
 * The topic entries of a menu items file and what every command does with
 * them: the JSON value `JSON.parse` yields, the select-menu option projection
 * built entry by entry, the `find` by `value`, and `Array.prototype.join`.
 */
module Topics {
  import opened Wrappers
  import opened Platform

  /** The `content` field of an entry: an array of lines, a single string, or absent. */
  datatype Content = Lines(lines: seq<string>) | Text(text: string) | NoContent

  /**
   * One object of the menu items file. `labelText` is its `label`; `preamble`
   * is None when the field is null or absent.
   */
  datatype Entry = Entry(
    labelText: string,
    description: string,
    value: string,
    content: Content,
    href: string,
    preamble: Option<string>)

  /** The top-level value `JSON.parse` returns: an array of entries, or any other value. */
  datatype Json = NonArray | Array(entries: seq<Entry>)

  /** What `JSON.parse(fs.readFileSync(path, 'utf8'))` gives: a thrown error's message, or a value. */
  datatype FileOutcome = ReadFailed(message: string) | ParseFailed(message: string) | Parsed(json: Json)

  /** The `menuItems` / `selectMenu` pair that a menu helper and the support command keep. */
  datatype MenuState = MenuState(menuItems: Option<Json>, selectMenu: Option<SelectMenu>)

  /**
   * The validation discord.js performs when the option at index `n` (the number
   * of options already in the menu) is built and added: None when it is
   * accepted, or the message of the error it throws.
   */
  type OptionCheck = (nat, MenuOption) -> Option<string>

  /** The message of the TypeError `forEach` on a parsed value that is not an array raises. */
  const FOREACH_ON_NON_ARRAY := "menuItems.forEach is not a function"

  /** `!filePath` is false: the variable is set and not empty. */
  predicate IsSet(env: Option<string>)
  {
    env.Some? && env.value != ""
  }

  /** `new StringSelectMenuOptionBuilder().setLabel(..).setDescription(..).setValue(..)` for one entry. */
  function OptionOf(e: Entry): MenuOption
  {
    MenuOption(e.labelText, e.description, e.value)
  }

  /** One option per entry, in order, with label, description and value copied verbatim. */
  function OptionsOf(items: seq<Entry>): (r: seq<MenuOption>)
    ensures |r| == |items|
    ensures forall i :: 0 <= i < |items| ==>
      r[i].labelText == items[i].labelText && r[i].description == items[i].description &&
      r[i].value == items[i].value
  {
    if items == [] then []
    else
      var rest := OptionsOf(items[1..]);
      assert forall i :: 1 <= i < |items| ==> items[i] == items[1..][i - 1];
      [OptionOf(items[0])] + rest
  }

  /** The options of a prefix are the prefix of the options. */
  lemma OptionsOfPrefix(items: seq<Entry>, k: nat)
    requires k <= |items|
    ensures OptionsOf(items[..k]) == OptionsOf(items)[..k]
  {
    var a, b := OptionsOf(items[..k]), OptionsOf(items)[..k];
    assert |a| == |b|;
    forall i | 0 <= i < k ensures a[i] == b[i] {
      assert items[..k][i] == items[i];
    }
  }

  /** The first index at or after `i` whose option the builder rejects, or |items|. */
  function AdmittedFrom(items: seq<Entry>, check: OptionCheck, i: nat): (k: nat)
    requires i <= |items|
    ensures i <= k <= |items|
    ensures forall j :: i <= j < k ==> check(j, OptionOf(items[j])).None?
    ensures k < |items| ==> check(k, OptionOf(items[k])).Some?
    decreases |items| - i
  {
    if i == |items| || check(i, OptionOf(items[i])).Some? then i
    else AdmittedFrom(items, check, i + 1)
  }

  /**
   * How many options the `forEach` adds before the builder throws: every entry
   * before index k is accepted, and the one at k (if any) is rejected.
   */
  function Admitted(items: seq<Entry>, check: OptionCheck): (k: nat)
    ensures k <= |items|
    ensures forall j :: 0 <= j < k ==> check(j, OptionOf(items[j])).None?
    ensures k < |items| ==> check(k, OptionOf(items[k])).Some?
  {
    AdmittedFrom(items, check, 0)
  }

  /** The error message the option loop throws, if it throws. */
  function Rejection(items: seq<Entry>, check: OptionCheck): (r: Option<string>)
    ensures r.None? <==> Admitted(items, check) == |items|
  {
    var k := Admitted(items, check);
    if k < |items| then check(k, OptionOf(items[k])) else None
  }

  /** The builder once the option loop has ended, normally or by a throw. */
  function BuiltMenu(customId: string, placeholder: string, items: seq<Entry>, check: OptionCheck): SelectMenu
  {
    SelectMenu(customId, placeholder, OptionsOf(items)[..Admitted(items, check)])
  }

  /** When no option is rejected, the built menu lists every entry, in order. */
  lemma BuiltMenuComplete(customId: string, placeholder: string, items: seq<Entry>, check: OptionCheck)
    requires Rejection(items, check).None?
    ensures BuiltMenu(customId, placeholder, items, check) == SelectMenu(customId, placeholder, OptionsOf(items))
  {
    assert OptionsOf(items)[..|items|] == OptionsOf(items);
  }

  /** When an option is rejected, the built menu is strictly shorter than the entries. */
  lemma BuiltMenuPartial(customId: string, placeholder: string, items: seq<Entry>, check: OptionCheck)
    requires Rejection(items, check).Some?
    ensures |BuiltMenu(customId, placeholder, items, check).options| < |items|
    ensures BuiltMenu(customId, placeholder, items, check).options != OptionsOf(items)
  {
  }

  /** The options of one more entry extend the options of the prefix. */
  lemma OptionsOfExtend(items: seq<Entry>, i: nat)
    requires i < |items|
    ensures OptionsOf(items)[..i + 1] == OptionsOf(items)[..i] + [OptionOf(items[i])]
  {
    var r := OptionsOf(items);
    var a, b := r[..i + 1], r[..i] + [OptionOf(items[i])];
    assert |a| == |b|;
    forall j | 0 <= j <= i ensures a[j] == b[j] {
      if j == i {
        assert a[j] == r[i];
      }
    }
  }

  /**
   * `items.forEach(item => menu.addOptions(..))` on a fresh builder: adds one
   * option per entry, in order, until the builder rejects one.
   */
  method AddOptions(menu: SelectMenu, items: seq<Entry>, check: OptionCheck)
    returns (built: SelectMenu, rejection: Option<string>)
    requires menu.options == []
    ensures built == BuiltMenu(menu.customId, menu.placeholder, items, check)
    ensures rejection == Rejection(items, check)
  {
    built := menu;
    rejection := None;
    ghost var k := Admitted(items, check);
    var i := 0;
    while i < |items| && rejection.None?
      invariant 0 <= i <= k
      invariant built == SelectMenu(menu.customId, menu.placeholder, OptionsOf(items)[..i])
      invariant rejection.Some? ==> i == k < |items| && rejection == check(i, OptionOf(items[i]))
      decreases |items| - i, if rejection.None? then 1 else 0
    {
      var option := OptionOf(items[i]);
      rejection := check(i, option);
      if rejection.None? {
        OptionsOfExtend(items, i);
        built := built.(options := built.options + [option]);
        i := i + 1;
      }
    }
  }

  /** Index of the first entry whose `value` is `topic`. */
  function FindIndex(items: seq<Entry>, topic: string): (r: Option<nat>)
    ensures r.Some? ==>
      r.value < |items| && items[r.value].value == topic &&
      forall j :: 0 <= j < r.value ==> items[j].value != topic
    ensures r.None? ==> forall j :: 0 <= j < |items| ==> items[j].value != topic
  {
    if |items| == 0 then None
    else if items[0].value == topic then Some(0)
    else
      match FindIndex(items[1..], topic)
      case None =>
        assert forall j :: 1 <= j < |items| ==> items[j] == items[1..][j - 1];
        None
      case Some(i) =>
        assert forall j :: 1 <= j < |items| ==> items[j] == items[1..][j - 1];
        Some(i + 1)
  }

  /** `items.find((item) => item.value === topic)`. */
  function Find(items: seq<Entry>, topic: string): (r: Option<Entry>)
    ensures r.Some? <==> exists i :: 0 <= i < |items| && items[i].value == topic
    ensures r.Some? ==> r.value in items && r.value.value == topic
  {
    match FindIndex(items, topic)
    case None => None
    case Some(i) => Some(items[i])
  }

  /** Duplicate values resolve to the first match. */
  lemma FindFirstWins(items: seq<Entry>, topic: string, i: nat)
    requires i < |items| && items[i].value == topic
    requires forall j :: 0 <= j < i ==> items[j].value != topic
    ensures Find(items, topic) == Some(items[i])
  {
    var r := FindIndex(items, topic);
    assert r.Some?;
    assert r.value == i;
  }

  /** A topic that no entry has is not found, and finding it into an empty array too. */
  lemma FindMiss(items: seq<Entry>, topic: string)
    requires forall j :: 0 <= j < |items| ==> items[j].value != topic
    ensures Find(items, topic) == None
  {
  }

  /** The message of the TypeError `.find` on undefined raises. */
  const FIND_ON_UNDEFINED := "Cannot read properties of undefined (reading 'find')"

  /**
   * `<receiver>.find((item) => item.value === topic)` on whatever `menuItems`
   * holds: not loaded and not an array both throw a TypeError.
   */
  function FindIn(items: Option<Json>, topic: string, receiver: string): (r: Result<Option<Entry>, JsError>)
    ensures r.Err? <==> !(items.Some? && items.value.Array?)
    ensures r.Ok? ==> r.value == Find(items.value.entries, topic)
  {
    match items
    case None => Err(TypeError(FIND_ON_UNDEFINED))
    case Some(NonArray) => Err(TypeError(receiver + ".find is not a function"))
    case Some(Array(entries)) => Ok(Find(entries, topic))
  }

  /** `parts.join(sep)` on an array of strings. */
  function Join(parts: seq<string>, sep: string): string
  {
    if |parts| == 0 then ""
    else if |parts| == 1 then parts[0]
    else parts[0] + sep + Join(parts[1..], sep)
  }

  /** `s.split(sep)` for a one-character separator: the pieces between separators. */
  function Split(s: string, sep: char): (parts: seq<string>)
    ensures |parts| >= 1
    decreases |s|
  {
    if |s| == 0 then [""]
    else
      var rest := Split(s[1..], sep);
      if s[0] == sep then [""] + rest else [[s[0]] + rest[0]] + rest[1..]
  }

  lemma {:induction false} SplitWithoutSeparator(s: string, sep: char)
    requires sep !in s
    ensures Split(s, sep) == [s]
    decreases |s|
  {
    if |s| > 0 {
      SplitWithoutSeparator(s[1..], sep);
      assert [s[0]] + s[1..] == s;
    }
  }

  lemma {:induction false} SplitAfterPiece(a: string, sep: char, t: string)
    requires sep !in a
    ensures Split(a + [sep] + t, sep) == [a] + Split(t, sep)
    decreases |a|
  {
    var s := a + [sep] + t;
    if |a| == 0 {
      assert s[0] == sep && s[1..] == t;
    } else {
      SplitAfterPiece(a[1..], sep, t);
      assert s[0] == a[0];
      assert s[1..] == a[1..] + [sep] + t;
      assert [a[0]] + a[1..] == a;
    }
  }

  /**
   * Joining lines that contain no separator loses nothing: splitting the result
   * gives the lines back, empty lines included.
   */
  lemma {:induction false} SplitJoin(parts: seq<string>, sep: char)
    requires |parts| >= 1
    requires forall i :: 0 <= i < |parts| ==> sep !in parts[i]
    ensures Split(Join(parts, [sep]), sep) == parts
    decreases |parts|
  {
    if |parts| == 1 {
      SplitWithoutSeparator(parts[0], sep);
    } else {
      SplitJoin(parts[1..], sep);
      SplitAfterPiece(parts[0], sep, Join(parts[1..], [sep]));
      assert [parts[0]] + parts[1..] == parts;
    }
  }

  /** The joined text is the lines' lengths plus one separator between each two lines. */
  lemma {:induction false} JoinLength(parts: seq<string>, sep: string)
    requires |parts| >= 1
    ensures |Join(parts, sep)| == TotalLength(parts) + (|parts| - 1) * |sep|
    decreases |parts|
  {
    if |parts| > 1 {
      JoinLength(parts[1..], sep);
    }
  }

  /** The sum of the lengths of `parts`. */
  function TotalLength(parts: seq<string>): nat
  {
    if parts == [] then 0 else |parts[0]| + TotalLength(parts[1..])
  }
}
