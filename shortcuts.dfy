/**
 * Keyboard shortcuts: normalising a key name and resolving a key press with
 * its modifiers and the typing focus into one of the editor's actions.
 */
module Shortcuts {
  import opened Results
  import opened PyValues

  /** The actions the editor's dispatcher knows. */
  datatype Action =
    | Delete | Split | Razor | TrimIn | TrimOut
    | Save | Undo | Redo | Export | Import | Duplicate
    | ZoomIn | ZoomOut | SelectPrev | SelectNext | TogglePlayPause
    | ShowShortcuts

  /** The action ids (`ACTION_*`) the dispatcher matches on. */
  function ActionId(a: Action): string {
    match a
    case Delete => "delete"
    case Split => "split"
    case Razor => "razor"
    case TrimIn => "trim_in"
    case TrimOut => "trim_out"
    case Save => "save"
    case Undo => "undo"
    case Redo => "redo"
    case Export => "export"
    case Import => "import"
    case Duplicate => "duplicate"
    case ZoomIn => "zoom_in"
    case ZoomOut => "zoom_out"
    case SelectPrev => "select_prev"
    case SelectNext => "select_next"
    case TogglePlayPause => "toggle_play_pause"
    case ShowShortcuts => "show_shortcuts"
  }

  /** No two actions share an id, so the dispatcher can tell every action apart. */
  lemma ActionIdsDistinct(a: Action, b: Action)
    ensures ActionId(a) == ActionId(b) <==> a == b
  {
  }

  // ---------------------------------------------------------------------------
  // Key names

  /** `s.replace(" ", "")`. */
  function RemoveSpaces(s: string): (r: string)
    ensures ' ' !in r
    ensures forall c :: c in r <==> c in s && c != ' '
    ensures ' ' !in s ==> r == s
    ensures s != [] && s[0] != ' ' ==> r != [] && r[0] == s[0]
    ensures s != [] && s[|s| - 1] != ' ' ==> r != [] && r[|r| - 1] == s[|s| - 1]
  {
    if s == [] then []
    else (if s[0] == ' ' then [] else [s[0]]) + RemoveSpaces(s[1..])
  }

  /** The spellings `_normalize_key` folds into one name. */
  const Aliases: map<string, string> := map[
    "arrowleft" := "left",
    "arrowright" := "right",
    "arrowup" := "up",
    "arrowdown" := "down",
    "spacebar" := "space",
    "add" := "+",
    "subtract" := "-"
  ]

  function Alias(k: string): string {
    if k in Aliases then Aliases[k] else k
  }

  /**
   * `_normalize_key`: a lone space is "space"; anything else is stripped,
   * lower-cased, cleared of spaces and mapped through the aliases.
   */
  function NormalizeKey(raw: string): (k: string)
    ensures raw == " " ==> k == "space"
  {
    if raw == " " then "space"
    else Alias(RemoveSpaces(Lower(Strip(raw))))
  }

  /** What a normal key name looks like: no spaces, no capitals, no white space at its ends, no alias. */
  predicate Canonical(k: string) {
    && ' ' !in k
    && (forall i :: 0 <= i < |k| ==> !('A' <= k[i] <= 'Z'))
    && (k == [] || (!IsSpace(k[0]) && !IsSpace(k[|k| - 1])))
    && k !in Aliases
  }

  lemma CanonicalIsFixed(k: string)
    requires Canonical(k)
    ensures NormalizeKey(k) == k
  {
    if k != [] {
      LowerIdentity(Strip(k));
    }
  }

  /** The names the aliases give are canonical. */
  lemma AliasTargetsCanonical(a: string)
    requires a in Aliases
    ensures Canonical(Aliases[a])
  {
    var v := Aliases[a];
    assert v in {"left", "right", "up", "down", "space", "+", "-"};
    assert v !in Aliases;
    PrintableWord(v);
  }

  /** Printable ASCII text without capitals or spaces has no white space at its ends. */
  lemma PrintableWord(k: string)
    requires k != []
    requires forall i :: 0 <= i < |k| ==> '!' <= k[i] <= '~' && !('A' <= k[i] <= 'Z')
    ensures ' ' !in k
    ensures !IsSpace(k[0]) && !IsSpace(k[|k| - 1])
  {
    PrintableNotSpace(k[0]);
    PrintableNotSpace(k[|k| - 1]);
  }

  /** No printable ASCII character other than the space counts as white space. */
  lemma PrintableNotSpace(c: char)
    requires '!' <= c <= '~'
    ensures !IsSpace(c)
  {
  }

  /** Lower-casing keeps a character that is not white space off white space. */
  lemma LowerKeepsNonSpace(c: char)
    requires !IsSpace(c)
    ensures !IsSpace(LowerChar(c))
  {
  }

  /** Stripping, lower-casing and removing spaces leaves a name without capitals, spaces or white space at its ends. */
  lemma CleanedIsCanonicalText(raw: string)
    ensures var m := RemoveSpaces(Lower(Strip(raw)));
      && ' ' !in m
      && (forall i :: 0 <= i < |m| ==> !('A' <= m[i] <= 'Z'))
      && (m == [] || (!IsSpace(m[0]) && !IsSpace(m[|m| - 1])))
  {
    var s := Strip(raw);
    var l := Lower(s);
    var m := RemoveSpaces(l);
    forall i | 0 <= i < |m|
      ensures !('A' <= m[i] <= 'Z')
    {
      assert m[i] in l;
    }
    if s != [] {
      LowerKeepsNonSpace(s[0]);
      LowerKeepsNonSpace(s[|s| - 1]);
      assert ' ' in PySpaces;
    }
  }

  /** Normalised names are canonical, so normalising twice changes nothing. */
  lemma NormalizeKeyIdempotent(raw: string)
    ensures Canonical(NormalizeKey(raw))
    ensures NormalizeKey(NormalizeKey(raw)) == NormalizeKey(raw)
  {
    var k := NormalizeKey(raw);
    if raw == " " {
      AliasTargetsCanonical("spacebar");
    } else {
      var m := RemoveSpaces(Lower(Strip(raw)));
      CleanedIsCanonicalText(raw);
      if m in Aliases {
        AliasTargetsCanonical(m);
      }
    }
    CanonicalIsFixed(k);
  }

  /** Every alias spelling normalises to the name it stands for. */
  lemma AliasesNormalize(a: string)
    requires a in Aliases
    ensures NormalizeKey(a) == Aliases[a]
  {
    assert a in {"arrowleft", "arrowright", "arrowup", "arrowdown", "spacebar", "add", "subtract"};
    CleanText(a);
  }

  /** Printable text without capitals or spaces is left as it is by stripping, lower-casing and space removal. */
  lemma CleanText(a: string)
    requires a != []
    requires forall i :: 0 <= i < |a| ==> '!' <= a[i] <= '~' && !('A' <= a[i] <= 'Z')
    ensures RemoveSpaces(Lower(Strip(a))) == a
  {
    PrintableWord(a);
    LowerIdentity(a);
  }

  // ---------------------------------------------------------------------------
  // Resolving a key press

  /** The help keys: F1, "?" and shift+"/". */
  predicate IsHelp(k: string, shift: bool) {
    k == "f1" || k == "?" || (k == "/" && shift)
  }

  /**
   * `resolve_shortcut_action`: the key is normalised first, then looked up
   * by `Resolve`.
   */
  function ResolveShortcut(key: string, ctrl: bool, shift: bool, alt: bool, meta: bool, typingFocus: bool): (r: Option<Action>)
    ensures NormalizeKey(key) == "" ==> r == None
  {
    Resolve(NormalizeKey(key), ctrl, shift, alt, meta, typingFocus)
  }

  /**
   * The lookup of a normalised key `k`: help is always available; alt blocks
   * everything else; ctrl or meta shortcuts work even while typing; plain
   * keys only act when no text field has focus.
   */
  function Resolve(k: string, ctrl: bool, shift: bool, alt: bool, meta: bool, typingFocus: bool): (r: Option<Action>)
    ensures k == "" ==> r == None
  {
    var primary := ctrl || meta;
    if k == "" then None
    else if IsHelp(k, shift) then Some(ShowShortcuts)
    else if alt then None
    else if primary && !shift && k == "z" then Some(Undo)
    else if primary && (k == "y" || (shift && k == "z")) then Some(Redo)
    else if primary && k == "s" then Some(Save)
    else if primary && k == "e" then Some(Export)
    else if primary && k == "i" then Some(Import)
    else if primary && k == "d" then Some(Duplicate)
    else if typingFocus then None
    else if k == "delete" || k == "backspace" then Some(Delete)
    else if k == "s" then Some(Split)
    else if k == "r" then Some(Razor)
    else if k == "i" then Some(TrimIn)
    else if k == "o" then Some(TrimOut)
    else if k == "+" || k == "=" then Some(ZoomIn)
    else if k == "-" || k == "_" then Some(ZoomOut)
    else if k == "left" then Some(SelectPrev)
    else if k == "right" then Some(SelectNext)
    else if k == "space" then Some(TogglePlayPause)
    else None
  }

  /** The help keys open the shortcut list whatever the modifiers and focus. */
  lemma HelpAlwaysWins(key: string, ctrl: bool, shift: bool, alt: bool, meta: bool, typingFocus: bool)
    ensures ResolveShortcut(key, ctrl, shift, alt, meta, typingFocus) == Some(ShowShortcuts)
      <==> IsHelp(NormalizeKey(key), shift)
  {
    HelpWins(NormalizeKey(key), ctrl, shift, alt, meta, typingFocus);
  }

  lemma HelpWins(k: string, ctrl: bool, shift: bool, alt: bool, meta: bool, typingFocus: bool)
    ensures Resolve(k, ctrl, shift, alt, meta, typingFocus) == Some(ShowShortcuts) <==> IsHelp(k, shift)
  {
  }

  /** With alt held, only help resolves. */
  lemma AltBlocks(key: string, ctrl: bool, shift: bool, meta: bool, typingFocus: bool)
    requires !IsHelp(NormalizeKey(key), shift)
    ensures ResolveShortcut(key, ctrl, shift, true, meta, typingFocus) == None
  {
  }

  /** While typing, only help and ctrl/meta shortcuts resolve. */
  lemma TypingFocusBlocksPlainKeys(key: string, ctrl: bool, shift: bool, alt: bool, meta: bool)
    requires ResolveShortcut(key, ctrl, shift, alt, meta, true).Some?
    ensures ResolveShortcut(key, ctrl, shift, alt, meta, true).value
      in {ShowShortcuts, Undo, Redo, Save, Export, Import, Duplicate}
    ensures ResolveShortcut(key, ctrl, shift, alt, meta, true) != Some(ShowShortcuts) ==> ctrl || meta
  {
  }

  /**
   * The ctrl/meta table, which typing focus does not affect: z undoes, y or
   * shift+z redoes, s/e/i/d save, export, import and duplicate.
   */
  lemma PrimaryShortcuts(key: string, ctrl: bool, shift: bool, meta: bool, typingFocus: bool)
    requires ctrl || meta
    ensures var k := NormalizeKey(key);
      var r := ResolveShortcut(key, ctrl, shift, false, meta, typingFocus);
      && (k == "z" ==> r == Some(if shift then Redo else Undo))
      && (k == "y" ==> r == Some(Redo))
      && (k == "s" ==> r == Some(Save))
      && (k == "e" ==> r == Some(Export))
      && (k == "i" ==> r == Some(Import))
      && (k == "d" ==> r == Some(Duplicate))
  {
  }

  /** Which action each plain key gives; every other plain key gives nothing. */
  lemma PlainKeys(key: string, shift: bool)
    ensures var k := NormalizeKey(key);
      var r := ResolveShortcut(key, false, shift, false, false, false);
      && (k == "delete" || k == "backspace" <==> r == Some(Delete))
      && (k == "s" <==> r == Some(Split))
      && (k == "r" <==> r == Some(Razor))
      && (k == "i" <==> r == Some(TrimIn))
      && (k == "o" <==> r == Some(TrimOut))
      && (k == "+" || k == "=" <==> r == Some(ZoomIn))
      && (k == "-" || k == "_" <==> r == Some(ZoomOut))
      && (k == "left" <==> r == Some(SelectPrev))
      && (k == "right" <==> r == Some(SelectNext))
      && (k == "space" <==> r == Some(TogglePlayPause))
      && (r.None? <==> !IsHelp(k, shift) && k !in {"delete", "backspace", "s", "r", "i", "o", "+", "=", "-", "_", "left", "right", "space"})
  {
    PlainTable(NormalizeKey(key), shift);
  }

  lemma PlainTable(k: string, shift: bool)
    ensures var r := Resolve(k, false, shift, false, false, false);
      && (k == "delete" || k == "backspace" <==> r == Some(Delete))
      && (k == "s" <==> r == Some(Split))
      && (k == "r" <==> r == Some(Razor))
      && (k == "i" <==> r == Some(TrimIn))
      && (k == "o" <==> r == Some(TrimOut))
      && (k == "+" || k == "=" <==> r == Some(ZoomIn))
      && (k == "-" || k == "_" <==> r == Some(ZoomOut))
      && (k == "left" <==> r == Some(SelectPrev))
      && (k == "right" <==> r == Some(SelectNext))
      && (k == "space" <==> r == Some(TogglePlayPause))
      && (r.None? <==> !IsHelp(k, shift) && k !in {"delete", "backspace", "s", "r", "i", "o", "+", "=", "-", "_", "left", "right", "space"})
  {
  }
}
