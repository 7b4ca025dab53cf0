/** The accelerated universal client of easytrader/custom/fast_universal_clienttrader.py.

    It replaces menu-tree navigation by function-key shortcuts where it can, and enters
    orders by typing one keystroke string into the main window. The dispatch rule and
    the keystroke strings are functions; the order operations are methods of a class
    whose trace `actions` records, in order, the calls the trader makes. What the
    superclass or an external library answers is read from a `Client` value. */
module FastTrader {
  import opened Text
  import opened GridStrategies

  // ================================================================ menu switching

  /** Where `_switch_left_menus` sends a path. */
  datatype Dispatch =
    | ByShortcut(key: string, sleep: real)          // the function-key shortcut, then a pause
    | ByMenuTree(path: seq<string>, sleep: real)    // the inherited walk down the menu tree
    | PathIndexError                                // IndexError: an empty path has no first entry

  /** The function keys whose name in a menu entry selects a shortcut, in the order
      the dispatch checks them. */
  const FunctionKeys: seq<string> := ["F1", "F2", "F3", "F4"]

  /** The keystroke for function key `k`, in send-keys syntax. */
  function ShortcutKey(k: nat): string
    requires k < |FunctionKeys|
  {
    Key(FunctionKeys[k])
  }

  /** `_switch_left_menus(path, sleep)` */
  function MenuDispatch(path: seq<string>, sleep: real): (d: Dispatch)
    ensures d.PathIndexError? <==> path == []
    ensures d.ByShortcut? ==> |path| == 1 && d.sleep == 0.2 && d.key in ["{F1}", "{F2}", "{F3}", "{F4}"]
    ensures d.ByMenuTree? ==> d.path == path && d.sleep == sleep
  {
    if path == [] then PathIndexError
    else if Contains(path[0], "F1") && |path| == 1 then ByShortcut("{F1}", 0.2)
    else if Contains(path[0], "F2") && |path| == 1 then ByShortcut("{F2}", 0.2)
    else if Contains(path[0], "F3") && |path| == 1 then ByShortcut("{F3}", 0.2)
    else if Contains(path[0], "F4") && |path| == 1 then ByShortcut("{F4}", 0.2)
    else ByMenuTree(path, sleep)
  }

  /** `key` occurs somewhere in `entry`. */
  ghost predicate Names(entry: string, key: string)
  {
    exists i: nat :: OccursAt(entry, key, i)
  }

  /** The path is a single entry naming some function key. */
  ghost predicate ShortcutPath(path: seq<string>)
  {
    |path| == 1 && exists k :: 0 <= k < |FunctionKeys| && Names(path[0], FunctionKeys[k])
  }

  /** An empty path raises; a single entry naming a function key goes to the first key
      it names, always with a 0.2 s pause whatever `sleep` was; every other path goes to
      the menu tree unchanged, with the caller's `sleep`. */
  lemma {:induction false} MenuDispatchRule(path: seq<string>, sleep: real)
    ensures MenuDispatch(path, sleep) == PathIndexError <==> path == []
    ensures MenuDispatch(path, sleep).ByShortcut? <==> ShortcutPath(path)
    ensures MenuDispatch(path, sleep).ByShortcut? ==>
              exists k :: 0 <= k < |FunctionKeys| && Names(path[0], FunctionKeys[k])
                && (forall m :: 0 <= m < k ==> !Names(path[0], FunctionKeys[m]))
                && MenuDispatch(path, sleep) == ByShortcut(ShortcutKey(k), 0.2)
    ensures path != [] && !ShortcutPath(path) ==> MenuDispatch(path, sleep) == ByMenuTree(path, sleep)
  {
    if path != [] {
      var entry := path[0];
      assert FunctionKeys[0] == "F1" && FunctionKeys[1] == "F2" && FunctionKeys[2] == "F3" && FunctionKeys[3] == "F4";
      ContainsIffOccurs(entry, "F1");
      ContainsIffOccurs(entry, "F2");
      ContainsIffOccurs(entry, "F3");
      ContainsIffOccurs(entry, "F4");
      if |path| == 1 {
        if Names(entry, "F1") {
          assert ShortcutKey(0) == "{F1}";
        } else if Names(entry, "F2") {
          assert ShortcutKey(1) == "{F2}";
        } else if Names(entry, "F3") {
          assert ShortcutKey(2) == "{F3}";
        } else if Names(entry, "F4") {
          assert ShortcutKey(3) == "{F4}";
        } else {
          forall k | 0 <= k < |FunctionKeys| ensures !Names(entry, FunctionKeys[k]) {}
        }
      }
    }
  }

  /** The menu entries the order operations and `position` switch to. */
  const BuyMenu := "买入[F1]"
  const SellMenu := "卖出[F2]"
  const QueryMenu := "查询[F4]"

  /** A two-character key is named nowhere in `entry` when no position holds its first
      character followed by its second. */
  lemma {:induction false} NotNamed(entry: string, key: string)
    requires |key| == 2
    requires forall i :: 0 <= i < |entry| - 1 ==> entry[i] != key[0] || entry[i + 1] != key[1]
    ensures !Contains(entry, key)
  {
    ContainsIffOccurs(entry, key);
    forall i: nat ensures !OccursAt(entry, key, i) {
      if i + 2 <= |entry| {
        assert entry[i..i + 2][0] == entry[i] && entry[i..i + 2][1] == entry[i + 1];
      }
    }
  }

  /** The buy entry takes the F1 shortcut. */
  lemma {:induction false} BuyMenuShortcut(sleep: real)
    ensures MenuDispatch([BuyMenu], sleep) == ByShortcut("{F1}", 0.2)
  {
    assert BuyMenu[3..5] == "F1";
  }

  /** The sell entry names no F1, so it takes the F2 shortcut. */
  lemma {:induction false} SellMenuShortcut(sleep: real)
    ensures MenuDispatch([SellMenu], sleep) == ByShortcut("{F2}", 0.2)
  {
    NotNamed(SellMenu, "F1");
    assert SellMenu[3..5] == "F2";
  }

  /** The query entry names none of F1-F3, so it takes the F4 shortcut. */
  lemma {:induction false} QueryMenuShortcut(sleep: real)
    ensures MenuDispatch([QueryMenu], sleep) == ByShortcut("{F4}", 0.2)
  {
    NotNamed(QueryMenu, "F1");
    NotNamed(QueryMenu, "F2");
    NotNamed(QueryMenu, "F3");
    assert QueryMenu[3..5] == "F4";
  }

  // ================================================================ keystroke strings

  /** `security[-6:]`: the last six characters, or the whole text when it is shorter. */
  function OrderCode(security: string): (code: string)
    ensures |code| == if |security| < 6 then |security| else 6
    ensures security == security[..|security| - |code|] + code
  {
    if |security| <= 6 then security else security[|security| - 6..]
  }

  /** `str(int(amount))` */
  function Quantity(amount: real): (q: string)
    ensures |q| >= 1
  {
    IntToString(Trunc(amount))
  }

  /** The quantity text reads back as the amount truncated toward zero. */
  lemma {:induction false} QuantityRoundTrip(amount: real)
    ensures ParseInt(Quantity(amount)) == Trunc(amount)
    ensures amount >= 0.0 ==> ParseInt(Quantity(amount)) as real <= amount < ParseInt(Quantity(amount)) as real + 1.0
  {
    IntRoundTrip(Trunc(amount));
  }

  /** A `{…}` group of send-keys syntax: a named key, with an optional repeat count, or
      a pause (`{{TAB}}` in an f-string). */
  function Key(name: string): string
  {
    "{" + name + "}"
  }

  /** `_set_with_default_price_and_submit`: clear the code field, type the code, skip the
      price field (its default stays), type the quantity and confirm. */
  function DefaultPriceKeys(security: string, amount: real): (keys: string)
    ensures Key("BACKSPACE 6") + Key("PAUSE 0.1") + OrderCode(security) <= keys
  {
    Key("BACKSPACE 6") + Key("PAUSE 0.1") + OrderCode(security) + Key("TAB") + Key("TAB")
    + Quantity(amount) + Key("TAB") + Key("PAUSE 0.1") + Key("ENTER")
  }

  /** `_set_trade_params`, with `price` the text of the rounded price: clear the code
      field, type the code, clear the price field, type the price, then the quantity,
      and confirm. */
  function TradeParamsKeys(security: string, price: string, amount: real): (keys: string)
    ensures Key("BACKSPACE 6") + Key("PAUSE 0.1") + OrderCode(security) <= keys
  {
    Key("BACKSPACE 6") + Key("PAUSE 0.1") + OrderCode(security) + Key("TAB") + Key("PAUSE 0.1")
    + Key("BACKSPACE 9") + Key("PAUSE 0.1") + price + Key("TAB") + Quantity(amount) + Key("TAB")
    + Key("PAUSE 0.1") + Key("ENTER")
  }

  // ---------------------------------------------------------------- send-keys reading

  /** A unit of a send-keys string: a character typed as itself, or a `{…}` group naming
      a key (with an optional repeat count) or a pause. */
  datatype KeyToken = Literal(c: char) | Braced(name: string)

  /** Index of the first `}` at or after `i`, or |s| when there is none. */
  function ClosingBrace(s: string, i: nat): (j: nat)
    requires i <= |s|
    ensures i <= j <= |s|
    ensures j < |s| ==> s[j] == '}'
    ensures forall k :: i <= k < j ==> s[k] != '}'
    decreases |s| - i
  {
    if i == |s| || s[i] == '}' then i else ClosingBrace(s, i + 1)
  }

  /** How a send-keys string is read: `{` opens a group that the next `}` closes, any
      other character is typed; None when a group is never closed. */
  function Tokenize(s: string): Option<seq<KeyToken>>
    decreases |s|
  {
    if s == [] then Some([])
    else if s[0] == '{' then
      var j := ClosingBrace(s, 1);
      if j == |s| then None
      else
        match Tokenize(s[j + 1..])
        case None => None
        case Some(rest) => Some([Braced(s[1..j])] + rest)
    else
      match Tokenize(s[1..])
      case None => None
      case Some(rest) => Some([Literal(s[0])] + rest)
  }

  function RenderToken(t: KeyToken): string
  {
    match t
    case Literal(c) => [c]
    case Braced(name) => Key(name)
  }

  /** The send-keys text of a token sequence. */
  function Render(ts: seq<KeyToken>): string
  {
    if ts == [] then [] else RenderToken(ts[0]) + Render(ts[1..])
  }

  /** A token that reads back as itself: a typed character is not `{`, a group name holds
      no `}`. */
  predicate Readable(t: KeyToken)
  {
    match t
    case Literal(c) => c != '{'
    case Braced(name) => '}' !in name
  }

  /** Every character of `s` typed as itself. */
  function Literals(s: string): (ts: seq<KeyToken>)
    ensures |ts| == |s| && forall k :: 0 <= k < |s| ==> ts[k] == Literal(s[k])
  {
    seq(|s|, k requires 0 <= k < |s| => Literal(s[k]))
  }

  /** The characters a token sequence types, in order. */
  function Typed(ts: seq<KeyToken>): string
  {
    if ts == [] then []
    else (if ts[0].Literal? then [ts[0].c] else []) + Typed(ts[1..])
  }

  lemma {:induction false} RenderAppend(a: seq<KeyToken>, b: seq<KeyToken>)
    ensures Render(a + b) == Render(a) + Render(b)
  {
    if a != [] {
      assert (a + b)[1..] == a[1..] + b;
      RenderAppend(a[1..], b);
    } else {
      assert a + b == b;
    }
  }

  lemma {:induction false} TypedAppend(a: seq<KeyToken>, b: seq<KeyToken>)
    ensures Typed(a + b) == Typed(a) + Typed(b)
  {
    if a != [] {
      assert (a + b)[1..] == a[1..] + b;
      TypedAppend(a[1..], b);
    } else {
      assert a + b == b;
    }
  }

  /** A run of typed characters renders as the text itself and types it. */
  lemma {:induction false} LiteralsText(s: string)
    ensures Render(Literals(s)) == s
    ensures Typed(Literals(s)) == s
  {
    if s != [] {
      assert Literals(s)[1..] == Literals(s[1..]);
      LiteralsText(s[1..]);
    }
  }

  /** A typed character in front of readable text. */
  lemma {:induction false} TokenizeLiteral(c: char, rest: string, ts: seq<KeyToken>)
    requires c != '{' && Tokenize(rest) == Some(ts)
    ensures Tokenize([c] + rest) == Some([Literal(c)] + ts)
  {
    assert ([c] + rest)[1..] == rest;
  }

  /** A closed group in front of readable text. */
  lemma {:induction false} TokenizeBraced(name: string, rest: string, ts: seq<KeyToken>)
    requires '}' !in name && Tokenize(rest) == Some(ts)
    ensures Tokenize("{" + name + "}" + rest) == Some([Braced(name)] + ts)
  {
    var s := "{" + name + "}" + rest;
    var j := |name| + 1;
    assert s[j] == '}';
    assert forall k :: 1 <= k < j ==> s[k] == name[k - 1];
    assert ClosingBrace(s, 1) == j;
    assert s[1..j] == name;
    assert s[j + 1..] == rest;
  }

  /** Reading the text of readable tokens gives the tokens back. */
  lemma {:induction false} TokenizeRender(ts: seq<KeyToken>)
    requires forall k :: 0 <= k < |ts| ==> Readable(ts[k])
    ensures Tokenize(Render(ts)) == Some(ts)
  {
    if ts != [] {
      TokenizeRender(ts[1..]);
      assert [ts[0]] + ts[1..] == ts;
      match ts[0]
      case Literal(c) => TokenizeLiteral(c, Render(ts[1..]), ts[1..]);
      case Braced(name) => TokenizeBraced(name, Render(ts[1..]), ts[1..]);
    }
  }

  /** The tokens of the default-price keystrokes around the code and the quantity. */
  function DefaultPriceTokens(code: string, quantity: string): seq<KeyToken>
  {
    Head + Literals(code) + (SkipPrice + Literals(quantity) + Confirm)
  }

  /** The tokens of the trade-params keystrokes around the code, price and quantity. */
  function TradeParamsTokens(code: string, price: string, quantity: string): seq<KeyToken>
  {
    Head + Literals(code) + (ClearPrice + Literals(price) + (NextField + Literals(quantity) + Confirm))
  }

  /** No character of `s` opens a group. */
  predicate Plain(s: string)
  {
    forall k :: 0 <= k < |s| ==> s[k] != '{'
  }

  lemma {:induction false} PlainLiterals(s: string)
    requires Plain(s)
    ensures forall k :: 0 <= k < |Literals(s)| ==> Readable(Literals(s)[k])
  {
  }

  /** The quantity is digits with an optional minus sign, so it never opens a group. */
  lemma {:induction false} QuantityPlain(amount: real)
    ensures Plain(Quantity(amount))
  {
    var q := Quantity(amount);
    forall k | 0 <= k < |q| ensures q[k] != '{' {
      assert IsDigit(q[k]) || q[k] == '-';
    }
  }

  lemma {:induction false} ReadableAppend(a: seq<KeyToken>, b: seq<KeyToken>)
    requires forall k :: 0 <= k < |a| ==> Readable(a[k])
    requires forall k :: 0 <= k < |b| ==> Readable(b[k])
    ensures forall k :: 0 <= k < |a + b| ==> Readable((a + b)[k])
  {
    forall k | 0 <= k < |a + b| ensures Readable((a + b)[k]) {
      if k < |a| {
        assert (a + b)[k] == a[k];
      } else {
        assert (a + b)[k] == b[k - |a|];
      }
    }
  }

  /** Text typed between two token runs renders as itself. */
  lemma {:induction false} RenderBetween(a: seq<KeyToken>, text: string, b: seq<KeyToken>)
    ensures Render(a + Literals(text) + b) == Render(a) + text + Render(b)
  {
    LiteralsText(text);
    RenderAppend(a + Literals(text), b);
    RenderAppend(a, Literals(text));
  }

  /** Text typed between two token runs is typed as itself. */
  lemma {:induction false} TypedBetween(a: seq<KeyToken>, text: string, b: seq<KeyToken>)
    ensures Typed(a + Literals(text) + b) == Typed(a) + text + Typed(b)
  {
    LiteralsText(text);
    TypedAppend(a + Literals(text), b);
    TypedAppend(a, Literals(text));
  }

  /** A run of key groups types nothing. */
  lemma {:induction false} GroupsTypeNothing(ts: seq<KeyToken>)
    requires forall k :: 0 <= k < |ts| ==> ts[k].Braced?
    ensures Typed(ts) == []
  {
    if ts != [] {
      GroupsTypeNothing(ts[1..]);
    }
  }

  /** Plain text between two readable token runs keeps the whole run readable. */
  lemma {:induction false} ReadableBetween(a: seq<KeyToken>, text: string, b: seq<KeyToken>)
    requires forall k :: 0 <= k < |a| ==> Readable(a[k])
    requires Plain(text)
    requires forall k :: 0 <= k < |b| ==> Readable(b[k])
    ensures forall k :: 0 <= k < |a + Literals(text) + b| ==> Readable((a + Literals(text) + b)[k])
  {
    PlainLiterals(text);
    ReadableAppend(a, Literals(text));
    ReadableAppend(a + Literals(text), b);
  }

  /** Every key group of the two keystroke strings. */
  const Head: seq<KeyToken> := [Braced("BACKSPACE 6"), Braced("PAUSE 0.1")]
  const Confirm: seq<KeyToken> := [Braced("TAB"), Braced("PAUSE 0.1"), Braced("ENTER")]
  const SkipPrice: seq<KeyToken> := [Braced("TAB"), Braced("TAB")]
  const ClearPrice: seq<KeyToken> := [Braced("TAB"), Braced("PAUSE 0.1"), Braced("BACKSPACE 9"), Braced("PAUSE 0.1")]
  const NextField: seq<KeyToken> := [Braced("TAB")]

  lemma {:induction false} Assoc(a: string, b: string, c: string)
    ensures a + (b + c) == a + b + c
  {
  }

  // A run of one to four key groups renders as the groups' text one after the other,
  // and reads back as itself when no name holds a `}`.

  lemma {:induction false} OneKey(a: string)
    ensures Render([Braced(a)]) == Key(a)
    ensures '}' !in a ==> forall k :: 0 <= k < 1 ==> Readable([Braced(a)][k])
  {
    assert [Braced(a)][1..] == [];
  }

  lemma {:induction false} TwoKeys(a: string, b: string)
    ensures Render([Braced(a), Braced(b)]) == Key(a) + Key(b)
    ensures '}' !in a && '}' !in b ==> forall k :: 0 <= k < 2 ==> Readable([Braced(a), Braced(b)][k])
  {
    var ts := [Braced(a), Braced(b)];
    assert ts[1..] == [Braced(b)];
    OneKey(b);
  }

  lemma {:induction false} ThreeKeys(a: string, b: string, c: string)
    ensures Render([Braced(a), Braced(b), Braced(c)]) == Key(a) + Key(b) + Key(c)
    ensures '}' !in a && '}' !in b && '}' !in c ==> forall k :: 0 <= k < 3 ==> Readable([Braced(a), Braced(b), Braced(c)][k])
  {
    var ts := [Braced(a), Braced(b), Braced(c)];
    assert ts[1..] == [Braced(b), Braced(c)];
    TwoKeys(b, c);
    Assoc(Key(a), Key(b), Key(c));
  }

  lemma {:induction false} FourKeys(a: string, b: string, c: string, d: string)
    ensures Render([Braced(a), Braced(b), Braced(c), Braced(d)]) == Key(a) + Key(b) + Key(c) + Key(d)
    ensures '}' !in a && '}' !in b && '}' !in c && '}' !in d ==>
              forall k :: 0 <= k < 4 ==> Readable([Braced(a), Braced(b), Braced(c), Braced(d)][k])
  {
    var ts := [Braced(a), Braced(b), Braced(c), Braced(d)];
    assert ts[1..] == [Braced(b), Braced(c), Braced(d)];
    ThreeKeys(b, c, d);
    Assoc(Key(a), Key(b) + Key(c), Key(d));
    Assoc(Key(a), Key(b), Key(c));
  }

  /** No key name of the two strings holds a `}`. */
  lemma {:induction false} KeyNamesClosed()
    ensures '}' !in "BACKSPACE 6" && '}' !in "BACKSPACE 9" && '}' !in "PAUSE 0.1"
    ensures '}' !in "TAB" && '}' !in "ENTER"
  {
  }

  /** The default-price tokens type exactly the code and then the quantity. */
  lemma {:induction false} DefaultPriceTyped(code: string, quantity: string)
    ensures Typed(DefaultPriceTokens(code, quantity)) == code + quantity
  {
    GroupsTypeNothing(Head);
    GroupsTypeNothing(SkipPrice);
    GroupsTypeNothing(Confirm);
    TypedBetween(SkipPrice, quantity, Confirm);
    TypedBetween(Head, code, SkipPrice + Literals(quantity) + Confirm);
  }

  /** The default-price tokens render as the keystroke string around `code` and
      `quantity`. */
  lemma {:induction false} DefaultPriceText(code: string, quantity: string)
    ensures Render(DefaultPriceTokens(code, quantity)) ==
              Key("BACKSPACE 6") + Key("PAUSE 0.1") + code + Key("TAB") + Key("TAB")
              + quantity + Key("TAB") + Key("PAUSE 0.1") + Key("ENTER")
  {
    var after := SkipPrice + Literals(quantity) + Confirm;
    TwoKeys("BACKSPACE 6", "PAUSE 0.1");
    TwoKeys("TAB", "TAB");
    ThreeKeys("TAB", "PAUSE 0.1", "ENTER");
    RenderBetween(SkipPrice, quantity, Confirm);
    RenderBetween(Head, code, after);
    var x := Key("BACKSPACE 6") + Key("PAUSE 0.1") + code;
    var tabs := Key("TAB") + Key("TAB");
    var y := x + Key("TAB") + Key("TAB") + quantity;
    var confirm := Key("TAB") + Key("PAUSE 0.1");
    Assoc(x, tabs + quantity, confirm + Key("ENTER"));
    Assoc(x, tabs, quantity);
    Assoc(x, Key("TAB"), Key("TAB"));
    Assoc(y, confirm, Key("ENTER"));
    Assoc(y, Key("TAB"), Key("PAUSE 0.1"));
  }

  /** With a plain code and quantity, every default-price token reads back as itself. */
  lemma {:induction false} DefaultPriceReadable(code: string, quantity: string)
    requires Plain(code) && Plain(quantity)
    ensures forall k :: 0 <= k < |DefaultPriceTokens(code, quantity)| ==> Readable(DefaultPriceTokens(code, quantity)[k])
  {
    KeyNamesClosed();
    TwoKeys("BACKSPACE 6", "PAUSE 0.1");
    TwoKeys("TAB", "TAB");
    ThreeKeys("TAB", "PAUSE 0.1", "ENTER");
    ReadableBetween(SkipPrice, quantity, Confirm);
    ReadableBetween(Head, code, SkipPrice + Literals(quantity) + Confirm);
  }

  /** Reading the default-price keystrokes: clear six characters, pause, type the code,
      tab twice past the price, type the quantity, tab, pause, Enter. The characters
      typed are the code followed by the quantity. */
  lemma {:induction false} DefaultPriceKeysRead(security: string, amount: real)
    requires Plain(OrderCode(security))
    ensures Tokenize(DefaultPriceKeys(security, amount)) == Some(DefaultPriceTokens(OrderCode(security), Quantity(amount)))
    ensures Typed(DefaultPriceTokens(OrderCode(security), Quantity(amount))) == OrderCode(security) + Quantity(amount)
  {
    var code, q := OrderCode(security), Quantity(amount);
    DefaultPriceText(code, q);
    DefaultPriceTyped(code, q);
    QuantityPlain(amount);
    DefaultPriceReadable(code, q);
    TokenizeRender(DefaultPriceTokens(code, q));
  }

  /** The trade-params tokens type exactly the code, the price and the quantity. */
  lemma {:induction false} TradeParamsTyped(code: string, price: string, quantity: string)
    ensures Typed(TradeParamsTokens(code, price, quantity)) == code + price + quantity
  {
    var last := NextField + Literals(quantity) + Confirm;
    GroupsTypeNothing(Head);
    GroupsTypeNothing(ClearPrice);
    GroupsTypeNothing(NextField);
    GroupsTypeNothing(Confirm);
    TypedBetween(NextField, quantity, Confirm);
    TypedBetween(ClearPrice, price, last);
    TypedBetween(Head, code, ClearPrice + Literals(price) + last);
  }

  /** The trade-params tokens render as the keystroke string around `code`, `price` and
      `quantity`. */
  lemma {:induction false} TradeParamsText(code: string, price: string, quantity: string)
    ensures Render(TradeParamsTokens(code, price, quantity)) ==
              Key("BACKSPACE 6") + Key("PAUSE 0.1") + code + Key("TAB") + Key("PAUSE 0.1")
              + Key("BACKSPACE 9") + Key("PAUSE 0.1") + price + Key("TAB") + quantity + Key("TAB")
              + Key("PAUSE 0.1") + Key("ENTER")
  {
    var last := NextField + Literals(quantity) + Confirm;
    var after := ClearPrice + Literals(price) + last;
    TwoKeys("BACKSPACE 6", "PAUSE 0.1");
    FourKeys("TAB", "PAUSE 0.1", "BACKSPACE 9", "PAUSE 0.1");
    OneKey("TAB");
    ThreeKeys("TAB", "PAUSE 0.1", "ENTER");
    RenderBetween(NextField, quantity, Confirm);
    RenderBetween(ClearPrice, price, last);
    RenderBetween(Head, code, after);
    var confirm := Key("TAB") + Key("PAUSE 0.1");
    var clear := Key("TAB") + Key("PAUSE 0.1") + Key("BACKSPACE 9") + Key("PAUSE 0.1");
    var x := Key("BACKSPACE 6") + Key("PAUSE 0.1") + code;
    // x + ((clear + price) + ((TAB + quantity) + (confirm + ENTER)))
    Assoc(x, clear + price, (Key("TAB") + quantity) + (confirm + Key("ENTER")));
    Assoc(x, clear, price);
    Assoc(x, Key("TAB") + Key("PAUSE 0.1") + Key("BACKSPACE 9"), Key("PAUSE 0.1"));
    Assoc(x, Key("TAB") + Key("PAUSE 0.1"), Key("BACKSPACE 9"));
    Assoc(x, Key("TAB"), Key("PAUSE 0.1"));
    var y := x + Key("TAB") + Key("PAUSE 0.1") + Key("BACKSPACE 9") + Key("PAUSE 0.1") + price;
    Assoc(y, Key("TAB") + quantity, confirm + Key("ENTER"));
    Assoc(y, Key("TAB"), quantity);
    var z := y + Key("TAB") + quantity;
    Assoc(z, confirm, Key("ENTER"));
    Assoc(z, Key("TAB"), Key("PAUSE 0.1"));
  }

  /** With a plain code, price and quantity, every trade-params token reads back as
      itself. */
  lemma {:induction false} TradeParamsReadable(code: string, price: string, quantity: string)
    requires Plain(code) && Plain(price) && Plain(quantity)
    ensures forall k :: 0 <= k < |TradeParamsTokens(code, price, quantity)| ==> Readable(TradeParamsTokens(code, price, quantity)[k])
  {
    KeyNamesClosed();
    TwoKeys("BACKSPACE 6", "PAUSE 0.1");
    FourKeys("TAB", "PAUSE 0.1", "BACKSPACE 9", "PAUSE 0.1");
    OneKey("TAB");
    ThreeKeys("TAB", "PAUSE 0.1", "ENTER");
    var last := NextField + Literals(quantity) + Confirm;
    ReadableBetween(NextField, quantity, Confirm);
    ReadableBetween(ClearPrice, price, last);
    ReadableBetween(Head, code, ClearPrice + Literals(price) + last);
  }

  /** Reading the trade-params keystrokes: clear and type the code, tab, clear nine
      characters of the price field, type the price, tab, type the quantity, tab, pause,
      Enter. The characters typed are code, price and quantity in that order. */
  lemma {:induction false} TradeParamsKeysRead(security: string, price: string, amount: real)
    requires Plain(OrderCode(security)) && Plain(price)
    ensures Tokenize(TradeParamsKeys(security, price, amount)) == Some(TradeParamsTokens(OrderCode(security), price, Quantity(amount)))
    ensures Typed(TradeParamsTokens(OrderCode(security), price, Quantity(amount))) == OrderCode(security) + price + Quantity(amount)
  {
    var code, q := OrderCode(security), Quantity(amount);
    TradeParamsText(code, price, q);
    TradeParamsTyped(code, price, q);
    QuantityPlain(amount);
    TradeParamsReadable(code, price, q);
    TokenizeRender(TradeParamsTokens(code, price, q));
  }

  // ================================================================ the trader

  /** `_get_main_child_window(control_id, class_name)`: the main window's child with that
      control id and class "Edit", whatever class was asked for. */
  function MainChildWindow(controlId: int, className: string): (w: Window)
    ensures w.MainChild? && w.controlId == controlId && w.className == "Edit"
  {
    MainChild(controlId, "Edit")
  }

  lemma {:induction false} MainChildIsEdit(controlId: int, className: string, other: string)
    ensures MainChildWindow(controlId, className).className == "Edit"
    ensures MainChildWindow(controlId, className) == MainChildWindow(controlId, other)
    ensures MainChildWindow(controlId, className).controlId == controlId
  {
  }

  /** A reply dictionary of the trading workflow. */
  type Response = map<string, string>

  /** The calls the trader makes, in order. */
  datatype TraderAction =
    | SwitchMenus(via: Dispatch)                        // a menu switch that did not raise
    | TypeMainKeys(keys: string)                        // keys sent to the main window
    | ReadGrid(controlId: int)                          // the rows of a grid, read by the superclass
    | Trade(security: string, price: real, amount: real) // the inherited trade(...)
    | HandlePopDialogs                                  // _handle_pop_dialogs(TradePopDialogHandler)

  /** What the superclass and the external libraries answer. */
  datatype Client = Client(
    gridRows: int -> RowSet,                    // _get_grid_data(control_id)
    roundPrice: (real, string) -> string,       // str(round_price_by_code(price, code))
    tradeReply: (string, real, real) -> Response,  // trade(security, price, amount)
    popReply: Response)                            // _handle_pop_dialogs(...)

  datatype Side = Buying | Selling

  /** The order-entry menu of a side. */
  function SideMenu(side: Side): string
  {
    match side
    case Buying => BuyMenu
    case Selling => SellMenu
  }

  function Opposite(side: Side): Side
  {
    match side
    case Buying => Selling
    case Selling => Buying
  }

  /** The shortcut switch that lands on a side's order-entry form. */
  function SideShortcut(side: Side): Dispatch
  {
    match side
    case Buying => ByShortcut("{F1}", 0.2)
    case Selling => ByShortcut("{F2}", 0.2)
  }

  /** Switching to the other side first and then to the requested one puts the focus on
      the first input field of the requested form. */
  function FocusSwitches(side: Side): seq<TraderAction>
  {
    [SwitchMenus(SideShortcut(Opposite(side))), SwitchMenus(SideShortcut(side))]
  }

  /** The two calls of `_trade_with_default_price` that act (`_submit_trade` does
      nothing). */
  function DefaultPriceSteps(security: string, amount: real): seq<TraderAction>
  {
    [TypeMainKeys(DefaultPriceKeys(security, amount)), HandlePopDialogs]
  }

  /** The menu selected by the last switch in a trace, if any. */
  function LastSwitch(acts: seq<TraderAction>): Option<Dispatch>
  {
    if acts == [] then None
    else if acts[|acts| - 1].SwitchMenus? then Some(acts[|acts| - 1].via)
    else LastSwitch(acts[..|acts| - 1])
  }

  /** A switch shortcut is the dispatch of the side's own menu entry. */
  lemma {:induction false} SideShortcutIsDispatch(side: Side, sleep: real)
    ensures MenuDispatch([SideMenu(side)], sleep) == SideShortcut(side)
    ensures SideShortcut(side) != SideShortcut(Opposite(side))
  {
    match side
    case Buying => BuyMenuShortcut(sleep);
    case Selling => SellMenuShortcut(sleep);
  }

  /** Whatever came before, once the focus switches for a side are made and only
      non-switching calls follow, the selected menu is that side's. */
  lemma {:induction false} LastSwitchIsSide(before: seq<TraderAction>, side: Side, after: seq<TraderAction>)
    requires forall k :: 0 <= k < |after| ==> !after[k].SwitchMenus?
    ensures LastSwitch(before + FocusSwitches(side) + after) == Some(SideShortcut(side))
  {
    var acts := before + FocusSwitches(side) + after;
    if after == [] {
      assert acts == before + FocusSwitches(side);
    } else {
      var init := after[..|after| - 1];
      assert acts[..|acts| - 1] == before + FocusSwitches(side) + init;
      assert acts[|acts| - 1] == after[|after| - 1];
      LastSwitchIsSide(before, side, init);
    }
  }

  /** The default-price steps that follow the focus switches never switch menus. */
  lemma {:induction false} DefaultPriceStepsKeepMenu(security: string, amount: real)
    ensures forall k :: 0 <= k < |DefaultPriceSteps(security, amount)| ==> !DefaultPriceSteps(security, amount)[k].SwitchMenus?
  {
  }

  /** The accelerated client: its trace of calls, the superclass's answers and the
      configured id of the common grid. */
  class FastUniversalClientTrader {
    var actions: seq<TraderAction>
    const client: Client
    const commonGridControlId: int

    constructor(client: Client, commonGridControlId: int)
      ensures actions == [] && this.client == client && this.commonGridControlId == commonGridControlId
    {
      actions := [];
      this.client := client;
      this.commonGridControlId := commonGridControlId;
    }

    /** `_switch_left_menus(path, sleep)`; `raised` for the IndexError of an empty path. */
    method SwitchLeftMenus(path: seq<string>, sleep: real) returns (raised: bool)
      modifies this
      ensures raised <==> path == []
      ensures actions == if raised then old(actions) else old(actions) + [SwitchMenus(MenuDispatch(path, sleep))]
    {
      var via := MenuDispatch(path, sleep);
      if via == PathIndexError {
        return true;
      }
      actions := actions + [SwitchMenus(via)];
      return false;
    }

    /** Switch to the opposite side's menu, then to the requested side's. */
    method FocusEntry(side: Side)
      modifies this
      ensures actions == old(actions) + FocusSwitches(side)
    {
      SideShortcutIsDispatch(side, 0.2);
      SideShortcutIsDispatch(Opposite(side), 0.2);
      assert Opposite(Opposite(side)) == side;
      var _ := SwitchLeftMenus([SideMenu(Opposite(side))], 0.2);
      var _ := SwitchLeftMenus([SideMenu(side)], 0.2);
    }

    /** `position`: the query menu by its F4 shortcut, then the common grid. */
    method Position() returns (rows: RowSet)
      modifies this
      ensures actions == old(actions) + [SwitchMenus(ByShortcut("{F4}", 0.2)), ReadGrid(commonGridControlId)]
      ensures rows == client.gridRows(commonGridControlId)
    {
      QueryMenuShortcut(0.2);
      var _ := SwitchLeftMenus([QueryMenu], 0.2);
      actions := actions + [ReadGrid(commonGridControlId)];
      rows := client.gridRows(commonGridControlId);
    }

    /** `_submit_trade`: does nothing. */
    method SubmitTrade()
      ensures actions == old(actions)
    {
    }

    /** `_set_with_default_price_and_submit` */
    method SetWithDefaultPriceAndSubmit(security: string, amount: real)
      modifies this
      ensures actions == old(actions) + [TypeMainKeys(DefaultPriceKeys(security, amount))]
    {
      actions := actions + [TypeMainKeys(DefaultPriceKeys(security, amount))];
    }

    /** `_set_trade_params`: the price is rounded for the code by the external rounding
        function before it is typed. */
    method SetTradeParams(security: string, price: real, amount: real)
      modifies this
      ensures actions == old(actions) + [TypeMainKeys(TradeParamsKeys(security, client.roundPrice(price, OrderCode(security)), amount))]
    {
      var code := OrderCode(security);
      var roundedPrice := client.roundPrice(price, code);
      actions := actions + [TypeMainKeys(TradeParamsKeys(security, roundedPrice, amount))];
    }

    /** `_trade_with_default_price` */
    method TradeWithDefaultPrice(security: string, amount: real) returns (reply: Response)
      modifies this
      ensures actions == old(actions) + DefaultPriceSteps(security, amount)
      ensures reply == client.popReply
    {
      SetWithDefaultPriceAndSubmit(security, amount);
      SubmitTrade();
      actions := actions + [HandlePopDialogs];
      reply := client.popReply;
    }

    /** `buy_with_default_price` / `sell_with_default_price` */
    method OrderWithDefaultPrice(side: Side, security: string, amount: real) returns (reply: Response)
      modifies this
      ensures actions == old(actions) + FocusSwitches(side) + DefaultPriceSteps(security, amount)
      ensures LastSwitch(actions) == Some(SideShortcut(side))
      ensures reply == client.popReply
    {
      FocusEntry(side);
      reply := TradeWithDefaultPrice(security, amount);
      DefaultPriceStepsKeepMenu(security, amount);
      LastSwitchIsSide(old(actions), side, DefaultPriceSteps(security, amount));
    }

    /** `buy` / `sell`: focus the form, then the inherited `trade`. */
    method Order(side: Side, security: string, price: real, amount: real) returns (reply: Response)
      modifies this
      ensures actions == old(actions) + FocusSwitches(side) + [Trade(security, price, amount)]
      ensures LastSwitch(actions) == Some(SideShortcut(side))
      ensures reply == client.tradeReply(security, price, amount)
    {
      FocusEntry(side);
      actions := actions + [Trade(security, price, amount)];
      reply := client.tradeReply(security, price, amount);
      LastSwitchIsSide(old(actions), side, [Trade(security, price, amount)]);
    }

    method BuyWithDefaultPrice(security: string, amount: real) returns (reply: Response)
      modifies this
      ensures actions == old(actions) + FocusSwitches(Buying) + DefaultPriceSteps(security, amount)
      ensures reply == client.popReply
    {
      reply := OrderWithDefaultPrice(Buying, security, amount);
    }

    method SellWithDefaultPrice(security: string, amount: real) returns (reply: Response)
      modifies this
      ensures actions == old(actions) + FocusSwitches(Selling) + DefaultPriceSteps(security, amount)
      ensures reply == client.popReply
    {
      reply := OrderWithDefaultPrice(Selling, security, amount);
    }

    method Buy(security: string, price: real, amount: real) returns (reply: Response)
      modifies this
      ensures actions == old(actions) + FocusSwitches(Buying) + [Trade(security, price, amount)]
      ensures reply == client.tradeReply(security, price, amount)
    {
      reply := Order(Buying, security, price, amount);
    }

    method Sell(security: string, price: real, amount: real) returns (reply: Response)
      modifies this
      ensures actions == old(actions) + FocusSwitches(Selling) + [Trade(security, price, amount)]
      ensures reply == client.tradeReply(security, price, amount)
    {
      reply := Order(Selling, security, price, amount);
    }
  }
}
