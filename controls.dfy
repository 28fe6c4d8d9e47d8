/**
 * Keyboard dispatch (src/utils/controls.ts): a key press, lower-cased,
 * becomes a move of the player, a jump, a panel toggle, or nothing.
 */
module Controls {
  import opened Wrappers
  import opened Text
  import opened GameStore

  /** Distance of one step on the ground plane. */
  const Speed: real := 0.5

  /**
   * What `handleKeyDown` asks the store to do. A jump is a move up by one
   * now and, 200 ms later, a move back to the position the key was pressed at.
   */
  datatype Action =
    | NoAction
    | Move(to: Pos)
    | Jump(up: Pos, back: Pos)
    | Toggle(panel: Panel)

  /** The `switch` of `handleKeyDown` on an already lower-cased key. */
  function Dispatch(p: Pos, key: string): (a: Action)
  {
    if key == "w" || key == "arrowup" then Move(p.(z := p.z - Speed))
    else if key == "s" || key == "arrowdown" then Move(p.(z := p.z + Speed))
    else if key == "a" || key == "arrowleft" then Move(p.(x := p.x - Speed))
    else if key == "d" || key == "arrowright" then Move(p.(x := p.x + Speed))
    else if key == " " then Jump(p.(y := p.y + 1.0), p)
    else if key == "i" then Toggle(InventoryPanel)
    else if key == "c" then Toggle(CharacterPanel)
    else if key == "k" then Toggle(SkillsPanel)
    else if key == "enter" then Toggle(ChatPanel)
    else NoAction
  }

  /** `handleKeyDown`: nothing without a player; otherwise the lower-cased key decides. */
  function HandleKey(player: Option<Player>, key: string): (a: Action)
    ensures player.None? ==> a == NoAction
    ensures a.Move? ==> Dist1(player.value.position, a.to)
    ensures a.Jump? ==> a.back == player.value.position && a.up == a.back.(y := a.back.y + 1.0)
  {
    if player.None? then NoAction else Dispatch(player.value.position, Lower(key))
  }

  /** `q` is `p` with exactly one ground coordinate moved by one step. */
  predicate Dist1(p: Pos, q: Pos)
  {
    || (q == p.(z := p.z - Speed)) || (q == p.(z := p.z + Speed))
    || (q == p.(x := p.x - Speed)) || (q == p.(x := p.x + Speed))
  }

  /** Upper- and lower-case spellings of a key do the same thing. */
  lemma HandleKeyIgnoresCase(player: Option<Player>, key: string)
    ensures HandleKey(player, Lower(key)) == HandleKey(player, key)
  {
    var l := Lower(key);
    assert Lower(l) == l by {
      forall i | 0 <= i < |l| ensures Lower(l)[i] == l[i] {
      }
    }
  }

  /** Forward then backward (or left then right) brings the player back. */
  lemma OppositeKeysCancel(p: Pos)
    ensures Dispatch(Dispatch(p, "w").to, "s") == Move(p)
    ensures Dispatch(Dispatch(p, "a").to, "d") == Move(p)
  {
  }

  /** The key-binding table `CONTROLS`. */
  datatype Binding = Forward | Backward | Left | Right | JumpKey | InventoryKey | CharacterKey | SkillsKey | ChatKey | CloseKey

  function Keys(b: Binding): seq<string>
  {
    match b
    case Forward => ["w", "arrowup"]
    case Backward => ["s", "arrowdown"]
    case Left => ["a", "arrowleft"]
    case Right => ["d", "arrowright"]
    case JumpKey => [" "]
    case InventoryKey => ["i"]
    case CharacterKey => ["c"]
    case SkillsKey => ["k"]
    case ChatKey => ["enter"]
    case CloseKey => ["escape"]
  }

  /** The action a binding names, for a player at `p`. */
  function Intended(b: Binding, p: Pos): Action
  {
    match b
    case Forward => Move(p.(z := p.z - Speed))
    case Backward => Move(p.(z := p.z + Speed))
    case Left => Move(p.(x := p.x - Speed))
    case Right => Move(p.(x := p.x + Speed))
    case JumpKey => Jump(p.(y := p.y + 1.0), p)
    case InventoryKey => Toggle(InventoryPanel)
    case CharacterKey => Toggle(CharacterPanel)
    case SkillsKey => Toggle(SkillsPanel)
    case ChatKey => Toggle(ChatPanel)
    case CloseKey => NoAction
  }

  /** Every key the table lists is handled by `handleKeyDown` as the table says. */
  lemma TableMatchesDispatch(b: Binding, i: nat, p: Pos)
    requires i < |Keys(b)|
    ensures Dispatch(p, Keys(b)[i]) == Intended(b, p)
  {
  }

  /** A key the table does not list does nothing. */
  lemma UnlistedKeyDoesNothing(p: Pos, key: string)
    requires forall b: Binding, i :: 0 <= i < |Keys(b)| ==> Keys(b)[i] != key
    ensures Dispatch(p, key) == NoAction
  {
    assert Keys(Forward)[0] != key && Keys(Forward)[1] != key;
    assert Keys(Backward)[0] != key && Keys(Backward)[1] != key;
    assert Keys(Left)[0] != key && Keys(Left)[1] != key;
    assert Keys(Right)[0] != key && Keys(Right)[1] != key;
    assert Keys(JumpKey)[0] != key && Keys(InventoryKey)[0] != key && Keys(CharacterKey)[0] != key;
    assert Keys(SkillsKey)[0] != key && Keys(ChatKey)[0] != key;
  }

  /** The effect of an action on the store; a jump's delayed return is not applied here. */
  function Perform(s: GameState, a: Action): (r: GameState)
    ensures a.NoAction? ==> r == s
    ensures a.Toggle? ==> r == ToggleUI(s, a.panel)
  {
    match a
    case NoAction => s
    case Move(to) => MovePlayer(s, to)
    case Jump(up, _) => MovePlayer(s, up)
    case Toggle(panel) => ToggleUI(s, panel)
  }

  /** A jump and its delayed return leave the player where the key was pressed. */
  lemma JumpReturns(s: GameState)
    requires s.player.Some?
    ensures var a := HandleKey(s.player, " ");
            a.Jump? && MovePlayer(Perform(s, a), a.back) == s
  {
    assert Lower(" ") == " ";
  }
}
