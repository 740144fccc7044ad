/** Keyboard input (keyboard.go): the key-name table, resolving the tokens of a key
    combination, the hold-type-release sequence of `Key`, `TypeText`, and the composite
    `TypeTextAt`. */
module Keyboard {
  import opened Driver
  import opened GoStrings
  import opened Sessions
  import Mouse

  /** `keyMap`: the names a caller may use for special keys, already trimmed and in
      lower case, and the key each stands for; None for a name not in the table. */
  function KeyMapLookup(name: string): Option<Key> {
    match name
    case "backspace" => Some(Backspace)
    case "tab" => Some(Tab)
    case "return" => Some(Enter)
    case "enter" => Some(Enter)
    case "shift" => Some(ShiftLeft)
    case "shiftleft" => Some(ShiftLeft)
    case "shiftright" => Some(ShiftRight)
    case "control" => Some(ControlLeft)
    case "ctrl" => Some(ControlLeft)
    case "controlleft" => Some(ControlLeft)
    case "controlright" => Some(ControlRight)
    case "alt" => Some(AltLeft)
    case "altleft" => Some(AltLeft)
    case "altright" => Some(AltRight)
    case "escape" => Some(Escape)
    case "esc" => Some(Escape)
    case "space" => Some(Space)
    case "pageup" => Some(PageUp)
    case "pagedown" => Some(PageDown)
    case "end" => Some(End)
    case "home" => Some(Home)
    case "left" => Some(ArrowLeft)
    case "arrowleft" => Some(ArrowLeft)
    case "up" => Some(ArrowUp)
    case "arrowup" => Some(ArrowUp)
    case "right" => Some(ArrowRight)
    case "arrowright" => Some(ArrowRight)
    case "down" => Some(ArrowDown)
    case "arrowdown" => Some(ArrowDown)
    case "insert" => Some(Insert)
    case "delete" => Some(Delete)
    case "f1" => Some(F1)
    case "f2" => Some(F2)
    case "f3" => Some(F3)
    case "f4" => Some(F4)
    case "f5" => Some(F5)
    case "f6" => Some(F6)
    case "f7" => Some(F7)
    case "f8" => Some(F8)
    case "f9" => Some(F9)
    case "f10" => Some(F10)
    case "f11" => Some(F11)
    case "f12" => Some(F12)
    case "command" => Some(MetaLeft)
    case "cmd" => Some(MetaLeft)
    case "meta" => Some(MetaLeft)
    case "metaleft" => Some(MetaLeft)
    case "metaright" => Some(MetaRight)
    case _ => None
  }

  /** The form a token is looked up in: trimmed, then lower-cased. */
  function Normalize(token: string): string {
    ToLower(TrimSpace(token))
  }

  /** A token sent as its literal characters, one key per rune. */
  function Literal(text: string): (keys: seq<Key>)
    ensures |keys| == |text|
    ensures forall i :: 0 <= i < |text| ==> keys[i] == Char(text[i])
  {
    seq(|text|, i requires 0 <= i < |text| => Char(text[i]))
  }

  /** The keys one token contributes: the table's key when its normalised form is a
      name in the table, otherwise the runes of the token as given (neither trimmed nor
      lower-cased). */
  function ResolveToken(token: string): seq<Key> {
    var found := KeyMapLookup(Normalize(token));
    if found.Some? then [found.value] else Literal(token)
  }

  /** The keys a list of tokens resolves to, in order. */
  function ResolveAll(tokens: seq<string>): seq<Key> {
    if tokens == [] then []
    else ResolveAll(tokens[..|tokens| - 1]) + ResolveToken(tokens[|tokens| - 1])
  }

  /** How many of the tokens are the empty string. */
  function CountEmpty(tokens: seq<string>): nat {
    if tokens == [] then 0
    else CountEmpty(tokens[..|tokens| - 1]) + (if tokens[|tokens| - 1] == "" then 1 else 0)
  }

  /** Every non-empty token contributes at least one key, so only empty tokens can
      shrink the key list below the token list. */
  lemma {:induction false} ResolveAllLength(tokens: seq<string>)
    ensures |ResolveAll(tokens)| >= |tokens| - CountEmpty(tokens)
    decreases |tokens|
  {
    if tokens != [] {
      ResolveAllLength(tokens[..|tokens| - 1]);
      ResolveTokenEmpty(tokens[|tokens| - 1]);
    }
  }

  /** A letter or digit in the ASCII range, which is all the table's names are made of. */
  predicate IsNameChar(c: char) {
    'a' <= c <= 'z' || '0' <= c <= '9'
  }

  /** A token resolves to nothing exactly when it is the empty string: a table name
      gives one key and any other non-empty token at least one rune, so a blank but
      non-empty token is sent as its literal spaces. */
  lemma ResolveTokenEmpty(token: string)
    ensures ResolveToken(token) == [] <==> token == ""
  {
    if token == "" {
      assert Normalize(token) == "";
    }
  }

  /** A name in the table resolves to its key, also written in any mix of upper and
      lower case and with any spaces around it (the table's names are made of
      lower-case letters and digits). */
  lemma ResolveIgnoresCaseAndPadding(name: string, pre: string, written: string, post: string)
    requires KeyMapLookup(name).Some?
    requires name != [] && forall i :: 0 <= i < |name| ==> IsNameChar(name[i])
    requires forall i :: 0 <= i < |pre| ==> IsSpace(pre[i])
    requires forall i :: 0 <= i < |post| ==> IsSpace(post[i])
    requires |written| == |name| && forall i :: 0 <= i < |name| ==> LowerRune(written[i]) == name[i]
    ensures ResolveToken(pre + written + post) == [KeyMapLookup(name).value]
  {
    assert !IsSpace(written[0]) && !IsSpace(written[|written| - 1]);
    TrimSpaceOfPadded(pre, written, post);
    assert Normalize(pre + written + post) == name;
  }

  /** The aliases of the modifier keys and of Enter: each group of names stands for one
      key, the left one where the keyboard has two. */
  lemma ModifierAliases()
    ensures KeyMapLookup("return") == KeyMapLookup("enter") == Some(Enter)
    ensures KeyMapLookup("shift") == KeyMapLookup("shiftleft") == Some(ShiftLeft)
    ensures KeyMapLookup("control") == KeyMapLookup("ctrl") == KeyMapLookup("controlleft") == Some(ControlLeft)
    ensures KeyMapLookup("alt") == KeyMapLookup("altleft") == Some(AltLeft)
    ensures KeyMapLookup("command") == KeyMapLookup("cmd") == KeyMapLookup("meta") == KeyMapLookup("metaleft") == Some(MetaLeft)
  {
  }

  /** The aliases of Escape and of the arrow keys. */
  lemma NavigationAliases()
    ensures KeyMapLookup("escape") == KeyMapLookup("esc") == Some(Escape)
    ensures KeyMapLookup("left") == KeyMapLookup("arrowleft") == Some(ArrowLeft)
    ensures KeyMapLookup("up") == KeyMapLookup("arrowup") == Some(ArrowUp)
    ensures KeyMapLookup("right") == KeyMapLookup("arrowright") == Some(ArrowRight)
    ensures KeyMapLookup("down") == KeyMapLookup("arrowdown") == Some(ArrowDown)
  {
  }

  function Presses(held: seq<Key>): seq<Event> {
    seq(|held|, i requires 0 <= i < |held| => Press(held[i]))
  }

  function Releases(held: seq<Key>): seq<Event> {
    seq(|held|, i requires 0 <= i < |held| => Release(held[|held| - 1 - i]))
  }

  /** The calls `Key` makes for resolved keys k0 .. k(n-1): nothing for no key; otherwise
      press k0 .. k(n-2) in order, type k(n-1) (one down and up), then release
      k(n-2) .. k0. */
  function KeyPlan(keys: seq<Key>): seq<Event> {
    if keys == [] then []
    else
      var held := keys[..|keys| - 1];
      Presses(held) + [TypeKeys([keys[|keys| - 1]])] + Releases(held)
  }

  /** The shape of `KeyPlan`: 2n-1 calls, the n-1 presses in order, the last key typed
      in the middle, and every held key released once, in reverse order. */
  lemma KeyPlanShape(keys: seq<Key>)
    ensures |keys| == 0 ==> KeyPlan(keys) == []
    ensures |keys| > 0 ==>
      var plan := KeyPlan(keys);
      && |plan| == 2 * |keys| - 1
      && plan[|keys| - 1] == TypeKeys([keys[|keys| - 1]])
      && (forall i :: 0 <= i < |keys| - 1 ==> plan[i] == Press(keys[i]))
      && (forall i :: 0 <= i < |keys| - 1 ==> plan[2 * |keys| - 2 - i] == Release(keys[i]))
  {
  }

  /** A single key is typed once, with no press or release around it. */
  lemma KeyPlanSingle(k: Key)
    ensures KeyPlan([k]) == [TypeKeys([k])]
  {
  }

  /** Only the last key is ever typed; every other call is a press or a release, and
      between the presses and the releases stands exactly that one typed key. */
  lemma KeyPlanTypesOnlyLast(keys: seq<Key>, i: nat)
    requires i < 2 * |keys| - 1
    ensures KeyPlan(keys)[i].TypeKeys? <==> i == |keys| - 1
    ensures i < |keys| - 1 ==> KeyPlan(keys)[i].Press?
    ensures i > |keys| - 1 ==> KeyPlan(keys)[i].Release?
  {
    var plan := KeyPlan(keys);
    KeyPlanShape(keys);
    if i > |keys| - 1 {
      var j := 2 * |keys| - 2 - i;
      assert 0 <= j < |keys| - 1 && plan[2 * |keys| - 2 - j] == Release(keys[j]);
    }
  }

  /** `Key` emits nothing exactly when every token is the empty string (zero tokens
      included). */
  lemma {:induction false} KeyIsNoOp(tokens: seq<string>)
    ensures ResolveAll(tokens) == [] <==> forall i :: 0 <= i < |tokens| ==> tokens[i] == ""
  {
    if tokens != [] {
      var init := tokens[..|tokens| - 1];
      KeyIsNoOp(init);
      ResolveTokenEmpty(tokens[|tokens| - 1]);
      if ResolveAll(tokens) == [] {
        forall i | 0 <= i < |tokens| ensures tokens[i] == "" {
          if i < |tokens| - 1 {
            assert tokens[i] == init[i];
          }
        }
      }
    }
  }

  /** The inner loop of `Key`'s resolution: the runes of `token`, one key each, after `keys`. */
  method AppendRunes(keys: seq<Key>, token: string) returns (r: seq<Key>)
    ensures r == keys + Literal(token)
  {
    r := keys;
    for j := 0 to |token|
      invariant r == keys + Literal(token[..j])
    {
      assert Literal(token[..j + 1]) == Literal(token[..j]) + [Char(token[j])];
      r := r + [Char(token[j])];
    }
    assert token[..|token|] == token;
  }

  /** Resolving one more token appends that token's keys. */
  lemma ResolveAllSnoc(tokens: seq<string>, i: nat)
    requires i < |tokens|
    ensures ResolveAll(tokens[..i + 1]) == ResolveAll(tokens[..i]) + ResolveToken(tokens[i])
  {
    assert tokens[..i + 1][..i] == tokens[..i];
  }

  /** The resolution loop of `Key`: each token's table key, or its runes one by one. */
  method ResolveKeys(tokens: seq<string>) returns (keys: seq<Key>)
    ensures keys == ResolveAll(tokens)
  {
    keys := [];
    for i := 0 to |tokens|
      invariant keys == ResolveAll(tokens[..i])
    {
      var token := tokens[i];
      ghost var prior := keys;
      var found := KeyMapLookup(Normalize(token));
      if found.Some? {
        keys := keys + [found.value];
      } else {
        keys := AppendRunes(keys, token);
      }
      assert keys == prior + ResolveToken(token);
      ResolveAllSnoc(tokens, i);
    }
    assert tokens[..|tokens|] == tokens;
  }

  /** The press loop of `Key`: press the held keys in order. */
  method PressHeld(s: Session, held: seq<Key>) returns (st: Status)
    modifies s.driver
    ensures s.driver.Performed(Presses(held), st)
  {
    ghost var at := |s.driver.trace|;
    ghost var plan := Presses(held);
    for i := 0 to |held|
      invariant s.driver.trace == old(s.driver.trace) + plan[..i]
      invariant forall p :: at <= p < at + i ==> p !in s.driver.failing
    {
      st := s.driver.Call(Press(held[i]));
      if st.Failed? {
        RunFirstFailure(plan, at, s.driver.failing, i);
        return;
      }
      assert plan[..i + 1] == plan[..i] + [Press(held[i])];
    }
    assert plan[..|held|] == plan;
    RunAllOk(plan, at, s.driver.failing);
    st := Ok;
  }

  /** The release loop of `Key`: release the held keys, the last one first. */
  method ReleaseHeld(s: Session, held: seq<Key>) returns (st: Status)
    modifies s.driver
    ensures s.driver.Performed(Releases(held), st)
  {
    ghost var at := |s.driver.trace|;
    ghost var plan := Releases(held);
    var i := |held| - 1;
    while i >= 0
      invariant -1 <= i < |held|
      invariant s.driver.trace == old(s.driver.trace) + plan[..|held| - 1 - i]
      invariant forall p :: at <= p < at + |held| - 1 - i ==> p !in s.driver.failing
    {
      st := s.driver.Call(Release(held[i]));
      if st.Failed? {
        RunFirstFailure(plan, at, s.driver.failing, |held| - 1 - i);
        return;
      }
      assert plan[..|held| - i] == plan[..|held| - 1 - i] + [Release(held[i])];
      i := i - 1;
    }
    assert plan[..|held|] == plan;
    RunAllOk(plan, at, s.driver.failing);
    st := Ok;
  }

  /** The calls `Key` makes once its tokens are resolved: nothing for no key, a single
      typing call for one key, and otherwise press, type and release as `KeyPlan` says,
      returning at the first failing call (which may leave keys held). */
  method TypeCombination(s: Session, keys: seq<Key>) returns (st: Status)
    modifies s.driver
    ensures s.driver.Performed(KeyPlan(keys), st)
  {
    ghost var failing := s.driver.failing;
    if |keys| == 0 {
      return Ok;
    }
    if |keys| == 1 {
      assert keys == [keys[0]];
      KeyPlanSingle(keys[0]);
      st := s.driver.Call(TypeKeys(keys));
      return;
    }

    var held := keys[..|keys| - 1];
    var main := TypeKeys([keys[|keys| - 1]]);
    ghost var t0 := s.driver.trace;
    st := PressHeld(s, held);
    ghost var t1 := s.driver.trace;
    if st.Failed? {
      DidStop(t0, t1, Presses(held), [main], failing, st);
      DidStop(t0, t1, Presses(held) + [main], Releases(held), failing, st);
      return;
    }

    st := s.driver.Call(main);
    ghost var t2 := s.driver.trace;
    DidCall(t1, main, failing);
    DidThen(t0, t1, t2, Presses(held), [main], failing, st);
    if st.Failed? {
      DidStop(t0, t2, Presses(held) + [main], Releases(held), failing, st);
      return;
    }

    st := ReleaseHeld(s, held);
    DidThen(t0, t2, s.driver.trace, Presses(held) + [main], Releases(held), failing, st);
  }

  /** `Key`: resolve the tokens and issue the calls of `KeyPlan` for the keys they
      resolve to. */
  method Key(s: Session, tokens: seq<string>) returns (st: Status)
    modifies s.driver
    ensures s.driver.Performed(KeyPlan(ResolveAll(tokens)), st)
  {
    if |tokens| == 0 {
      return Ok;
    }
    var keys := ResolveKeys(tokens);
    st := TypeCombination(s, keys);
  }

  /** `TypeText`: one typing call for all the runes of the text. */
  method TypeText(s: Session, text: string) returns (st: Status)
    modifies s.driver
    ensures s.driver.Performed([TypeKeys(Literal(text))], st)
  {
    st := s.driver.Call(TypeKeys(Literal(text)));
  }

  /** The select-all combination: Command+A on macOS, Control+A elsewhere. */
  function SelectAllTokens(darwin: bool): seq<string> {
    if darwin then ["Command", "A"] else ["Control", "A"]
  }

  /** The modifier of the select-all combination. */
  function SelectAllModifier(darwin: bool): Key {
    if darwin then MetaLeft else ControlLeft
  }

  /** The calls of the clearing step of `TypeTextAt`: the select-all combination (the
      modifier held around typing "A"), then the Delete key typed on its own. */
  function ClearPlan(darwin: bool): seq<Event> {
    var modifier := SelectAllModifier(darwin);
    [Press(modifier), TypeKeys([Char('A')]), Release(modifier), TypeKeys([Delete])]
  }

  /** What `TypeTextAt` issues when nothing fails: click at the point, wait; when
      clearing, select all and delete; type the text, wait; when asked, type Enter;
      wait. */
  function TypeTextAtPlan(c: Config, x: int, y: int, text: string, clearBefore: bool, pressEnter: bool, darwin: bool): seq<Event> {
    [Move(NormalizeCoords(c, x, y)), Click(Left, 1), WaitLoad]
    + (if clearBefore then ClearPlan(darwin) else [])
    + [TypeKeys(Literal(text)), WaitLoad]
    + (if pressEnter then [TypeKeys([Enter])] else []) + [WaitLoad]
  }

  /** A token with no surrounding spaces normalises to its rune-by-rune lower case. */
  lemma NormalizesTo(token: string, name: string)
    requires token != [] && !IsSpace(token[0]) && !IsSpace(token[|token| - 1])
    requires |token| == |name| && forall i :: 0 <= i < |name| ==> LowerRune(token[i]) == name[i]
    ensures Normalize(token) == name
  {
    TrimSpaceOfPadded("", token, "");
    assert "" + token + "" == token;
  }

  /** A capitalised word normalises to the name that differs from it only in its first
      letter, when the rest of the name is lower-case letters and digits. */
  lemma NormalizesCapitalized(token: string, name: string)
    requires |token| == |name| && token != []
    requires 'A' <= token[0] <= 'Z' && name[0] as int == token[0] as int + 32
    requires forall i :: 1 <= i < |name| ==> IsNameChar(name[i]) && token[i] == name[i]
    ensures Normalize(token) == name
  {
    forall i | 0 <= i < |name|
      ensures LowerRune(token[i]) == name[i]
    {
    }
    NormalizesTo(token, name);
  }

  /** A token whose normal form is a name in the table resolves to that name's key. */
  lemma ResolveByName(token: string, name: string)
    requires Normalize(token) == name && KeyMapLookup(name).Some?
    ensures ResolveToken(token) == [KeyMapLookup(name).value]
  {
  }

  /** "A" is not a name in the table (its lower-case form "a" is not either), so it is
      sent as the literal upper-case character. */
  lemma LetterAIsLiteral()
    ensures ResolveToken("A") == [Char('A')]
  {
    NormalizesTo("A", "a");
    assert KeyMapLookup("a") == None;
  }

  /** "Command", as `TypeTextAt` writes it, names the left Meta key. */
  lemma CommandIsMeta()
    ensures ResolveToken("Command") == [MetaLeft]
  {
    NormalizesCapitalized("Command", "command");
    ResolveByName("Command", "command");
  }

  /** "Control", as `TypeTextAt` writes it, names the left Control key. */
  lemma ControlIsControlLeft()
    ensures ResolveToken("Control") == [ControlLeft]
  {
    NormalizesCapitalized("Control", "control");
    ResolveByName("Control", "control");
  }

  /** "Delete", as `TypeTextAt` writes it, names the Delete key. */
  lemma DeleteIsDelete()
    ensures ResolveToken("Delete") == [Delete]
  {
    NormalizesCapitalized("Delete", "delete");
    ResolveByName("Delete", "delete");
  }

  /** "Enter", as `TypeTextAt` writes it, names the Enter key. */
  lemma EnterIsEnter()
    ensures ResolveToken("Enter") == [Enter]
  {
    NormalizesCapitalized("Enter", "enter");
    ResolveByName("Enter", "enter");
  }

  /** A single token that resolves to one key is typed as that key. */
  lemma SingleKeyTyped(token: string, k: Key)
    requires ResolveToken(token) == [k]
    ensures KeyPlan(ResolveAll([token])) == [TypeKeys([k])]
  {
    assert [token][..0] == [];
    assert ResolveAll([token]) == ResolveAll([]) + ResolveToken(token);
  }

  /** Two tokens resolve to the keys of the first followed by those of the second. */
  lemma ResolvePair(first: string, second: string)
    ensures ResolveAll([first, second]) == ResolveToken(first) + ResolveToken(second)
  {
    assert [first, second][..1] == [first];
    assert [first][..0] == [];
    assert ResolveAll([first]) == ResolveToken(first);
  }


  /** Two keys: the first is held around typing the second. */
  lemma KeyPlanPair(held: Key, typed: Key)
    ensures KeyPlan([held, typed]) == [Press(held), TypeKeys([typed]), Release(held)]
  {
    assert [held, typed][..1] == [held];
  }

  /** Two tokens that resolve to one key each: the first held around typing the
      second. */
  lemma PairOfKeys(first: string, second: string, held: Key, typed: Key)
    requires ResolveToken(first) == [held] && ResolveToken(second) == [typed]
    ensures KeyPlan(ResolveAll([first, second])) == [Press(held), TypeKeys([typed]), Release(held)]
  {
    assert ResolveAll([first, second]) == [held, typed] by {
      ResolvePair(first, second);
    }
    KeyPlanPair(held, typed);
  }

  /** The select-all tokens are the platform's modifier held around a literal "A". */
  lemma SelectAllKeys(darwin: bool)
    ensures KeyPlan(ResolveAll(SelectAllTokens(darwin)))
      == [Press(SelectAllModifier(darwin)), TypeKeys([Char('A')]), Release(SelectAllModifier(darwin))]
  {
    var tokens := SelectAllTokens(darwin);
    var modifier := SelectAllModifier(darwin);
    assert ResolveToken(tokens[0]) == [modifier] by {
      if darwin { CommandIsMeta(); } else { ControlIsControlLeft(); }
    }
    assert ResolveToken(tokens[1]) == [Char('A')] by {
      LetterAIsLiteral();
    }
    assert tokens == [tokens[0], tokens[1]];
    PairOfKeys(tokens[0], tokens[1], modifier, Char('A'));
  }

  /** The clearing step of `TypeTextAt`: select all with the platform's combination,
      then press Delete. */
  method ClearField(s: Session, darwin: bool) returns (st: Status)
    modifies s.driver
    ensures s.driver.Performed(ClearPlan(darwin), st)
  {
    ghost var failing := s.driver.failing;
    ghost var t0 := s.driver.trace;
    ghost var modifier := SelectAllModifier(darwin);
    ghost var selectAll := [Press(modifier), TypeKeys([Char('A')]), Release(modifier)];
    ghost var delete := [TypeKeys([Delete])];
    assert ClearPlan(darwin) == selectAll + delete;
    SelectAllKeys(darwin);
    st := Key(s, SelectAllTokens(darwin));
    ghost var t1 := s.driver.trace;
    if st.Failed? {
      DidStop(t0, t1, selectAll, delete, failing, st);
      return;
    }
    DeleteIsDelete();
    SingleKeyTyped("Delete", Delete);
    st := Key(s, ["Delete"]);
    DidThen(t0, t1, s.driver.trace, selectAll, delete, failing, st);
  }

  /** The first step of `TypeTextAt`: click at the point, then wait for the page. */
  method ClickAndWait(s: Session, x: int, y: int) returns (st: Status)
    modifies s.driver
    ensures s.driver.Performed([Move(NormalizeCoords(s.config, x, y)), Click(Left, 1), WaitLoad], st)
  {
    ghost var failing := s.driver.failing;
    ghost var t0 := s.driver.trace;
    ghost var click := [Move(NormalizeCoords(s.config, x, y)), Click(Left, 1)];
    assert click + [WaitLoad] == [Move(NormalizeCoords(s.config, x, y)), Click(Left, 1), WaitLoad];
    st := Mouse.ClickAt(s, x, y);
    ghost var t1 := s.driver.trace;
    if st.Failed? {
      DidStop(t0, t1, click, [WaitLoad], failing, st);
      return;
    }
    st := s.driver.Call(WaitLoad);
    DidCall(t1, WaitLoad, failing);
    DidThen(t0, t1, s.driver.trace, click, [WaitLoad], failing, st);
  }

  /** The typing step of `TypeTextAt`: type the text, then wait for the page. */
  method TypeAndWait(s: Session, text: string) returns (st: Status)
    modifies s.driver
    ensures s.driver.Performed([TypeKeys(Literal(text)), WaitLoad], st)
  {
    ghost var failing := s.driver.failing;
    ghost var t0 := s.driver.trace;
    st := TypeText(s, text);
    ghost var t1 := s.driver.trace;
    if st.Failed? {
      DidStop(t0, t1, [TypeKeys(Literal(text))], [WaitLoad], failing, st);
      assert [TypeKeys(Literal(text))] + [WaitLoad] == [TypeKeys(Literal(text)), WaitLoad];
      return;
    }
    st := s.driver.Call(WaitLoad);
    DidCall(t1, WaitLoad, failing);
    DidThen(t0, t1, s.driver.trace, [TypeKeys(Literal(text))], [WaitLoad], failing, st);
    assert [TypeKeys(Literal(text))] + [WaitLoad] == [TypeKeys(Literal(text)), WaitLoad];
  }

  /** The last step of `TypeTextAt`: type Enter when asked, then wait for the page. */
  method EnterAndWait(s: Session, pressEnter: bool) returns (st: Status)
    modifies s.driver
    ensures s.driver.Performed((if pressEnter then [TypeKeys([Enter])] else []) + [WaitLoad], st)
  {
    ghost var failing := s.driver.failing;
    ghost var t0 := s.driver.trace;
    if pressEnter {
      EnterIsEnter();
      SingleKeyTyped("Enter", Enter);
      st := Key(s, ["Enter"]);
      ghost var t1 := s.driver.trace;
      if st.Failed? {
        DidStop(t0, t1, [TypeKeys([Enter])], [WaitLoad], failing, st);
        return;
      }
      st := s.driver.Call(WaitLoad);
      DidCall(t1, WaitLoad, failing);
      DidThen(t0, t1, s.driver.trace, [TypeKeys([Enter])], [WaitLoad], failing, st);
    } else {
      st := s.driver.Call(WaitLoad);
      DidCall(t0, WaitLoad, failing);
      assert [] + [WaitLoad] == [WaitLoad];
    }
  }

  /** `TypeTextAt`: the calls of `TypeTextAtPlan`, stopping at the first failing one and
      returning its error; `darwin` stands for the platform test. */
  method TypeTextAt(s: Session, x: int, y: int, text: string, clearBefore: bool, pressEnter: bool, darwin: bool)
    returns (st: Status)
    modifies s.driver
    ensures s.driver.Performed(TypeTextAtPlan(s.config, x, y, text, clearBefore, pressEnter, darwin), st)
  {
    ghost var failing := s.driver.failing;
    ghost var t0 := s.driver.trace;
    ghost var click := [Move(NormalizeCoords(s.config, x, y)), Click(Left, 1), WaitLoad];
    ghost var clear := if clearBefore then ClearPlan(darwin) else [];
    ghost var typing := [TypeKeys(Literal(text)), WaitLoad];
    ghost var finish := (if pressEnter then [TypeKeys([Enter])] else []) + [WaitLoad];
    assert TypeTextAtPlan(s.config, x, y, text, clearBefore, pressEnter, darwin) == click + clear + typing + finish;

    st := ClickAndWait(s, x, y);
    ghost var t1 := s.driver.trace;
    if st.Failed? {
      assert click + (clear + typing + finish) == click + clear + typing + finish;
      DidStop(t0, t1, click, clear + typing + finish, failing, st);
      return;
    }

    if clearBefore {
      st := ClearField(s, darwin);
    } else {
      assert click + [] == click;
    }
    ghost var t2 := s.driver.trace;
    DidThen(t0, t1, t2, click, clear, failing, st);
    if st.Failed? {
      assert click + clear + (typing + finish) == click + clear + typing + finish;
      DidStop(t0, t2, click + clear, typing + finish, failing, st);
      return;
    }

    st := TypeAndWait(s, text);
    ghost var t3 := s.driver.trace;
    DidThen(t0, t2, t3, click + clear, typing, failing, st);
    if st.Failed? {
      DidStop(t0, t3, click + clear + typing, finish, failing, st);
      return;
    }

    st := EnterAndWait(s, pressEnter);
    DidThen(t0, t3, s.driver.trace, click + clear + typing, finish, failing, st);
  }
}
