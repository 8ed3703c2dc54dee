/** The console helpers of `user_input.py`: a validating reader over a
    scripted stream of input lines (standing in for `input()`), and a
    numbered menu built on it. */
module UserInput {
  import opened Wrappers
  import opened Text

  /** Case folding of one character. Only ASCII upper-case letters are
      folded; Unicode case folding is not part of this model. */
  function FoldChar(c: char): char
  {
    if 'A' <= c <= 'Z' then (c as int - 'A' as int + 'a' as int) as char else c
  }

  /** `str.casefold`, character by character. */
  function CaseFold(s: string): string
  {
    seq(|s|, j requires 0 <= j < |s| => FoldChar(s[j]))
  }

  /** The set `{str(option).casefold() for option in valid_options}`, for
      options already rendered as text. */
  function Folded(options: set<string>): set<string>
  {
    set o | o in options :: CaseFold(o)
  }

  lemma CaseFoldTwice(s: string)
    ensures CaseFold(CaseFold(s)) == CaseFold(s)
  {
  }

  /** Folding an already folded option set changes nothing, so the recursive
      calls of `get_input`, which receive the folded set, accept the same
      lines as the first call. */
  lemma {:induction false} FoldedTwice(options: set<string>)
    ensures Folded(Folded(options)) == Folded(options)
  {
    forall o | o in Folded(options) ensures CaseFold(o) == o {
      var p :| p in options && CaseFold(p) == o;
      CaseFoldTwice(p);
    }
    forall o | o in Folded(options) ensures o in Folded(Folded(options)) {
      assert CaseFold(o) == o;
    }
  }

  /** A decimal rendering has nothing to fold. */
  lemma CaseFoldDecimal(k: int)
    ensures CaseFold(IntToString(k)) == IntToString(k)
  {
    var s := IntToString(k);
    forall j | 0 <= j < |s| ensures FoldChar(s[j]) == s[j] {
      if k < 0 && j > 0 { assert s[j] == NatToString(-k)[j - 1]; }
    }
  }

  /** What `get_input` returns: the raw line, or the line converted by
      `valid_type`. */
  datatype Answer<T> = Raw(text: string) | Converted(value: T)

  /** An accepted answer, the line that was accepted and how many lines of
      the stream were read, the accepted one included. */
  datatype Accepted<T> = Accepted(answer: Answer<T>, line: string, consumed: nat)

  /** The outcome of a retry, seen from the call that made it: one more line
      was read. */
  function Retried<T>(r: Result<Accepted<T>>): Result<Accepted<T>>
  {
    match r
    case Ok(a) => Ok(a.(consumed := a.consumed + 1))
    case Err(e) => Err(e)
  }

  /** `UserInput.get_input(valid_options, valid_type)` reading `inputs`. A
      line is accepted only when it is, as typed, one of the folded options.
      A line that `valid_type` cannot convert makes it ask again with the
      same `valid_type`; a line outside the options makes it ask again
      without one. Running out of lines is `input()`'s EOFError. */
  function GetInput<T>(options: set<string>, validType: Option<string -> Option<T>>, inputs: seq<string>)
    : (r: Result<Accepted<T>>)
    ensures r.Err? ==> r.error == EOFError
    ensures r.Ok? ==> 1 <= r.value.consumed <= |inputs| && r.value.line == inputs[r.value.consumed - 1]
    ensures r.Ok? ==> r.value.line in Folded(options)
    ensures r.Ok? && r.value.answer.Raw? ==> r.value.answer.text == r.value.line
    ensures r.Ok? && r.value.answer.Converted? ==>
      validType.Some? && validType.value(r.value.line) == Some(r.value.answer.value)
    decreases |inputs|
  {
    var valid := Folded(options);
    FoldedTwice(options);
    if inputs == [] then Err(EOFError)
    else
      var line := inputs[0];
      match validType
      case Some(convert) =>
        if convert(line).None? then Retried(GetInput(valid, validType, inputs[1..]))
        else if line !in valid then Retried(GetInput(valid, None, inputs[1..]))
        else Ok(Accepted(Converted(convert(line).value), line, 1))
      case None =>
        if line !in valid then Retried(GetInput(valid, None, inputs[1..]))
        else Ok(Accepted(Raw(line), line, 1))
  }

  /** A line that converts and is an option is accepted at once, converted. */
  lemma FirstLineAccepted<T>(options: set<string>, convert: string -> Option<T>, inputs: seq<string>)
    requires |inputs| >= 1 && convert(inputs[0]).Some? && inputs[0] in Folded(options)
    ensures GetInput(options, Some(convert), inputs) == Ok(Accepted(Converted(convert(inputs[0]).value), inputs[0], 1))
  {
  }

  /** A line that does not convert is discarded and the prompt repeats with
      the same conversion. */
  lemma RetryKeepsType<T>(options: set<string>, convert: string -> Option<T>, inputs: seq<string>)
    requires |inputs| >= 1 && convert(inputs[0]).None?
    ensures GetInput(options, Some(convert), inputs) == Retried(GetInput(Folded(options), Some(convert), inputs[1..]))
  {
  }

  /** A line that converts but is not an option makes the prompt repeat with
      no conversion at all. */
  lemma RetryDropsType<T>(options: set<string>, convert: string -> Option<T>, inputs: seq<string>)
    requires |inputs| >= 1 && convert(inputs[0]).Some? && inputs[0] !in Folded(options)
    ensures GetInput(options, Some(convert), inputs) == Retried(GetInput(Folded(options), None, inputs[1..]))
  {
  }

  /** Each line read before the accepted one was rejected, either because it
      is not an option or because it did not convert; when the stream runs
      out, every line was rejected for one of those reasons. */
  lemma {:induction false} RejectedLines<T>(options: set<string>, validType: Option<string -> Option<T>>, inputs: seq<string>)
    ensures var r := GetInput(options, validType, inputs);
      var read := if r.Ok? then r.value.consumed - 1 else |inputs|;
      forall i :: 0 <= i < read ==>
        inputs[i] !in Folded(options) || (validType.Some? && validType.value(inputs[i]).None?)
    decreases |inputs|
  {
    if inputs != [] {
      FoldedTwice(options);
      var line := inputs[0];
      var rest := inputs[1..];
      var valid := Folded(options);
      var r := GetInput(options, validType, inputs);
      if line in valid && (validType.None? || validType.value(line).Some?) {
        assert r.Ok? && r.value.consumed == 1;
      } else {
        // The retry keeps the conversion only when the line failed it.
        var kept := if validType.Some? && validType.value(line).None? then validType else None;
        var inner := GetInput(valid, kept, rest);
        assert r == Retried(inner);
        RejectedLines(valid, kept, rest);
        var read := if inner.Ok? then inner.value.consumed - 1 else |rest|;
        forall i | 0 <= i < read + 1
          ensures inputs[i] !in valid || (validType.Some? && validType.value(inputs[i]).None?)
        {
          if i > 0 {
            assert inputs[i] == rest[i - 1];
          }
        }
      }
    }
  }

  /** With a conversion, the answer comes back converted exactly when every
      line before it failed to convert; once a converting line is rejected as
      not an option, whatever is accepted later is the raw line. */
  lemma {:induction false} ConvertedIffTypeKept<T>(options: set<string>, convert: string -> Option<T>, inputs: seq<string>)
    requires GetInput(options, Some(convert), inputs).Ok?
    ensures var a := GetInput(options, Some(convert), inputs).value;
      a.answer.Converted? <==> forall i :: 0 <= i < a.consumed - 1 ==> convert(inputs[i]).None?
    decreases |inputs|
  {
    var line := inputs[0];
    var rest := inputs[1..];
    var a := GetInput(options, Some(convert), inputs).value;
    if convert(line).None? {
      ConvertedIffTypeKept(Folded(options), convert, rest);
      forall i | 1 <= i < a.consumed - 1 ensures convert(inputs[i]) == convert(rest[i - 1]) {}
    } else if line !in Folded(options) {
      assert a.answer.Raw?;
      assert a.consumed >= 2;
    }
  }

  /** A menu entry: an item of the menu, or the added "exit" entry. */
  datatype Entry<T> = Item(item: T) | Exit

  /** The option texts `get_input` sees for a menu: `str` of each key. */
  function MenuKeys<T>(menuList: map<int, Entry<T>>): set<string>
  {
    set k | k in menuList :: IntToString(k)
  }

  /** `menu_list[user_choice]`: the entry under a converted choice; a raw
      (string) choice is never a key of the integer-keyed menu. */
  function Lookup<T>(menuList: map<int, Entry<T>>, got: Result<Accepted<int>>): (r: Result<Entry<T>>)
    ensures got.Err? ==> r == Err(got.error)
    ensures r.Ok? <==> got.Ok? && got.value.answer.Converted? && got.value.answer.value in menuList
    ensures r.Ok? ==> r.value == menuList[got.value.answer.value]
    ensures got.Ok? && got.value.answer.Raw? ==> r == Err(KeyError(got.value.answer.text))
  {
    match got
    case Err(e) => Err(e)
    case Ok(a) =>
      match a.answer
      case Raw(s) => Err(KeyError(s))
      case Converted(k) => if k in menuList then Ok(menuList[k]) else Err(KeyError(IntToString(k)))
  }

  /** The numbers a menu of `n` entries uses: 1..n. */
  function Numbers(n: nat): (ks: set<int>)
    ensures forall k :: k in ks <==> 1 <= k <= n
    ensures |ks| == n
  {
    if n == 0 then {} else Numbers(n - 1) + {n}
  }

  /** `{index + 1: value for index, value in enumerate(menu)}`. */
  function Enumerated<T>(menu: seq<T>): (m: map<int, Entry<T>>)
    ensures m.Keys == Numbers(|menu|) && |m| == |menu|
    ensures forall k :: 1 <= k <= |menu| ==> m[k] == Item(menu[k - 1])
  {
    var m := map k | k in Numbers(|menu|) :: Item(menu[k - 1]);
    assert m.Keys == Numbers(|menu|);
    m
  }

  /** The numbered menu of `create_menu`: the enumerated items, and
      `len(menu_list) + 1 -> "exit"` when `exit_` is set (the enumeration
      has one entry per item, so `len(menu_list)` is `|menu|`). */
  function MenuList<T>(menu: seq<T>, exit: bool): map<int, Entry<T>>
  {
    var items := Enumerated(menu);
    if exit then items[|menu| + 1 := Exit] else items
  }

  /** The menu numbers are 1..n, and n+1 when `exit_` is set; number k
      holds the (k-1)-th item and n+1 holds "exit". */
  lemma MenuListNumbered<T>(menu: seq<T>, exit: bool)
    ensures MenuList(menu, exit).Keys == Numbers(|menu| + (if exit then 1 else 0))
    ensures forall k :: 1 <= k <= |menu| ==> MenuList(menu, exit)[k] == Item(menu[k - 1])
    ensures exit ==> MenuList(menu, exit)[|menu| + 1] == Exit
  {
    MenuListKeys(menu, exit);
    MenuListItems(menu, exit);
  }

  /** The numbers of the menu. */
  lemma MenuListKeys<T>(menu: seq<T>, exit: bool)
    ensures MenuList(menu, exit).Keys == Numbers(|menu| + (if exit then 1 else 0))
  {
    if exit {
      WithExit(Enumerated(menu), |menu|);
    }
  }

  /** The items keep their numbers when "exit" is added. */
  lemma MenuListItems<T>(menu: seq<T>, exit: bool)
    ensures forall k :: 1 <= k <= |menu| ==> MenuList(menu, exit)[k] == Item(menu[k - 1])
  {
    var items := Enumerated(menu);
    forall k | 1 <= k <= |menu|
      ensures MenuList(menu, exit)[k] == Item(menu[k - 1])
    {
      assert items[k] == Item(menu[k - 1]);
    }
  }

  /** Adding `n+1 -> "exit"` to the items numbered 1..n numbers them 1..n+1. */
  lemma WithExit<T>(items: map<int, Entry<T>>, n: nat)
    requires items.Keys == Numbers(n)
    ensures items[n + 1 := Exit].Keys == Numbers(n + 1)
  {
    assert Numbers(n + 1) == Numbers(n) + {n + 1};
  }

  /** `UserInput.create_menu(menu, exit_)`: numbers the items 1..n in
      iteration order, adds n+1 -> "exit" when asked, and looks the reader's
      answer up. `parseInt` stands for Python's `int` on text. */
  method CreateMenu<T>(menu: seq<T>, exit: bool, parseInt: string -> Option<int>, inputs: seq<string>)
    returns (menuList: map<int, Entry<T>>, choice: Result<Entry<T>>)
    ensures menuList == MenuList(menu, exit)
    ensures choice == Lookup(menuList, GetInput(MenuKeys(menuList), Some(parseInt), inputs))
  {
    menuList := MenuList(menu, exit);
    var answer := GetInput(MenuKeys(menuList), Some(parseInt), inputs);
    choice := Lookup(menuList, answer);
  }

  /** When `parseInt` reads every decimal rendering back, a converted choice
      is always one of the menu's numbers, so the lookup finds its entry;
      a raw choice, which only the retry path produces, always fails the
      lookup. */
  lemma ChoiceLookup<T>(menuList: map<int, Entry<T>>, parseInt: string -> Option<int>, inputs: seq<string>)
    requires forall k :: parseInt(IntToString(k)) == Some(k)
    ensures var got := GetInput(MenuKeys(menuList), Some(parseInt), inputs);
      got.Ok? && got.value.answer.Converted? ==>
        got.value.answer.value in menuList &&
        Lookup(menuList, got) == Ok(menuList[got.value.answer.value])
    ensures var got := GetInput(MenuKeys(menuList), Some(parseInt), inputs);
      got.Ok? && got.value.answer.Raw? ==> Lookup(menuList, got) == Err(KeyError(got.value.line))
  {
    var got := GetInput(MenuKeys(menuList), Some(parseInt), inputs);
    if got.Ok? && got.value.answer.Converted? {
      var line := got.value.line;
      assert line in Folded(MenuKeys(menuList));
      var o :| o in MenuKeys(menuList) && CaseFold(o) == line;
      var k :| k in menuList && IntToString(k) == o;
      CaseFoldDecimal(k);
      assert parseInt(line) == Some(k);
    }
  }

  /** On a two-item menu, typing a number that is not on it and then "1"
      ends in KeyError: the retry dropped the conversion, so the accepted
      answer is the text "1", which is not a key of the integer-keyed menu. */
  lemma MenuRetryKeyError<T>(a: T, b: T, parseInt: string -> Option<int>)
    requires forall k :: parseInt(IntToString(k)) == Some(k)
    ensures var menuList := map[1 := Item(a), 2 := Item(b)];
      Lookup(menuList, GetInput(MenuKeys(menuList), Some(parseInt), ["3", "1"])) == Err(KeyError("1"))
  {
    var menuList := map[1 := Item(a), 2 := Item(b)];
    TwoMenuKeys(a, b);
    assert IntToString(3) == "3";
    assert parseInt("3") == Some(3);
    var rest := GetInput<int>({"1", "2"}, None, ["1"]);
    assert rest == Ok(Accepted(Raw("1"), "1", 1));
    assert GetInput(MenuKeys(menuList), Some(parseInt), ["3", "1"]) == Retried(rest);
  }

  /** The options `get_input` sees for a two-item menu, folded. */
  lemma TwoMenuKeys<T>(a: T, b: T)
    ensures Folded(MenuKeys(map[1 := Item(a), 2 := Item(b)])) == {"1", "2"}
  {
    var menuList := map[1 := Item(a), 2 := Item(b)];
    assert IntToString(1) == "1" && IntToString(2) == "2";
    assert menuList.Keys == {1, 2};
    assert MenuKeys(menuList) == {"1", "2"};
    CaseFoldDecimal(1);
    CaseFoldDecimal(2);
    assert Folded({"1", "2"}) == {"1", "2"};
  }

  /** `get_input` as its callers evidently intend it: a line that is not an
      option makes the prompt repeat with the same `valid_type`, so with a
      conversion every accepted answer is converted. */
  function GetInputRetyped<T>(options: set<string>, validType: Option<string -> Option<T>>, inputs: seq<string>)
    : (r: Result<Accepted<T>>)
    ensures r.Err? ==> r.error == EOFError
    ensures r.Ok? ==> 1 <= r.value.consumed <= |inputs| && r.value.line == inputs[r.value.consumed - 1]
    ensures r.Ok? ==> r.value.line in Folded(options)
    ensures r.Ok? ==> (r.value.answer.Converted? <==> validType.Some?)
    ensures r.Ok? && r.value.answer.Raw? ==> r.value.answer.text == r.value.line
    ensures r.Ok? && r.value.answer.Converted? ==>
      validType.Some? && validType.value(r.value.line) == Some(r.value.answer.value)
    decreases |inputs|
  {
    var valid := Folded(options);
    FoldedTwice(options);
    if inputs == [] then Err(EOFError)
    else
      var line := inputs[0];
      match validType
      case Some(convert) =>
        if convert(line).None? || line !in valid then Retried(GetInputRetyped(valid, validType, inputs[1..]))
        else Ok(Accepted(Converted(convert(line).value), line, 1))
      case None =>
        if line !in valid then Retried(GetInputRetyped(valid, None, inputs[1..]))
        else Ok(Accepted(Raw(line), line, 1))
  }

  /** With the corrected reader, a menu choice either finds its entry or the
      input runs out: it never ends in KeyError. */
  lemma RetypedMenuChoice<T>(menuList: map<int, Entry<T>>, parseInt: string -> Option<int>, inputs: seq<string>)
    requires forall k :: parseInt(IntToString(k)) == Some(k)
    ensures var c := Lookup(menuList, GetInputRetyped(MenuKeys(menuList), Some(parseInt), inputs));
      (c.Ok? && c.value in menuList.Values) || c == Err(EOFError)
  {
    var got := GetInputRetyped(MenuKeys(menuList), Some(parseInt), inputs);
    if got.Ok? {
      var line := got.value.line;
      assert line in Folded(MenuKeys(menuList));
      var o :| o in MenuKeys(menuList) && CaseFold(o) == line;
      var k :| k in menuList && IntToString(k) == o;
      CaseFoldDecimal(k);
      assert parseInt(line) == Some(k);
      assert got.value.answer == Converted(k);
    }
  }
}
