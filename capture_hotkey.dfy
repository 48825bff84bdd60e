/**
 * The key-capture session of the renderer (useCaptureHotkey.js): while it is active,
 * every keydown is turned into an accelerator string such as "Ctrl+Shift+K" and kept
 * as the session's current value.
 */
module CaptureHotkey {
  import opened Wrappers

  /** A keydown event as the handler reads it: four modifier flags and the DOM key name. */
  datatype KeyEvent = KeyEvent(ctrlKey: bool, altKey: bool, shiftKey: bool, metaKey: bool, key: string)

  const ArrowPrefix: string := "Arrow"

  /** The character that joins the tokens of an accelerator. */
  const Separator: char := '+'

  /** The modifier tokens, in the order the handler emits them. */
  const ModifierOrder: seq<string> := ["Ctrl", "Alt", "Shift", "Super"]

  /** The key names of the modifier keys themselves: pressing one alone completes no chord. */
  predicate IsBareModifier(k: string)
    ensures IsBareModifier(k) ==> |k| >= 3 && NormalizeKey(k) == k
  {
    if k == "Control" || k == "Shift" || k == "Alt" || k == "Meta" then
      NotArrowPrefixed(k);
      true
    else
      false
  }

  /** `toUpperCase` on one character, for the ASCII letters. */
  function ToUpper(c: char): (u: char)
    ensures 'a' <= c <= 'z' ==> 'A' <= u <= 'Z' && u as int == c as int - 32
    ensures !('a' <= c <= 'z') ==> u == c
  {
    if 'a' <= c <= 'z' then (c as int - 'a' as int + 'A' as int) as char else c
  }

  /**
   * normalizeKey: a space becomes "Space", an "Arrow" prefix is removed, a single
   * character is upper-cased, and every other key name is kept as it is.
   */
  function NormalizeKey(key: string): (r: string)
    ensures key == " " ==> r == "Space"
    ensures key != " " && ArrowPrefix <= key ==> ArrowPrefix + r == key
    ensures key != " " && !(ArrowPrefix <= key) && |key| == 1 ==>
              |r| == 1 && r[0] == ToUpper(key[0]) && ToUpper(r[0]) == r[0]
    ensures key != " " && !(ArrowPrefix <= key) && |key| != 1 ==> r == key
  {
    if key == " " then "Space"
    else if ArrowPrefix <= key then key[|ArrowPrefix|..]
    else if |key| == 1 then [ToUpper(key[0])]
    else key
  }

  /** Position of a modifier token in ModifierOrder. */
  function Rank(t: string): nat {
    if t == "Ctrl" then 0 else if t == "Alt" then 1 else if t == "Shift" then 2 else 3
  }

  /**
   * The modifier tokens of a keydown: each flag that is set contributes its token once,
   * and the tokens come in the order Ctrl, Alt, Shift, Super.
   */
  function ModifierTokens(e: KeyEvent): (parts: seq<string>)
    ensures forall i :: 0 <= i < |parts| ==> parts[i] in ModifierOrder
    ensures "Ctrl" in parts <==> e.ctrlKey
    ensures "Alt" in parts <==> e.altKey
    ensures "Shift" in parts <==> e.shiftKey
    ensures "Super" in parts <==> e.metaKey
    ensures forall i, j :: 0 <= i < j < |parts| ==> Rank(parts[i]) < Rank(parts[j])
  {
    (if e.ctrlKey then ["Ctrl"] else [])
    + (if e.altKey then ["Alt"] else [])
    + (if e.shiftKey then ["Shift"] else [])
    + (if e.metaKey then ["Super"] else [])
  }

  /**
   * `parts.join(sep)`: the result starts with the first part, which is followed by `sep`
   * when there is more than one part.
   */
  function Join(parts: seq<string>, sep: char): (r: string)
    ensures |parts| == 0 ==> r == ""
    ensures |parts| > 0 ==> parts[0] <= r
    ensures |parts| > 1 ==> |parts[0]| < |r| && r[|parts[0]|] == sep
    decreases |parts|
  {
    if |parts| == 0 then ""
    else if |parts| == 1 then parts[0]
    else parts[0] + [sep] + Join(parts[1..], sep)
  }

  /** `s.split(sep)`: the pieces between occurrences of `sep`; always at least one piece. */
  function Split(s: string, sep: char): (pieces: seq<string>)
    ensures |pieces| >= 1
    decreases |s|
  {
    if |s| == 0 then [""]
    else
      var rest := Split(s[1..], sep);
      if s[0] == sep then [""] + rest else [[s[0]] + rest[0]] + rest[1..]
  }

  /**
   * The accelerator a keydown produces, or None when the key pressed is a bare modifier.
   * When the base key contains no "+", the accelerator splits back into the modifier
   * tokens followed by exactly one base-key token.
   */
  function ChordOf(e: KeyEvent): (r: Option<string>)
    ensures r.None? <==> IsBareModifier(NormalizeKey(e.key))
    ensures r.Some? ==> r.value == Join(ModifierTokens(e) + [NormalizeKey(e.key)], Separator)
    ensures r.Some? && Separator !in NormalizeKey(e.key) ==>
              Split(r.value, Separator) == ModifierTokens(e) + [NormalizeKey(e.key)]
  {
    var k := NormalizeKey(e.key);
    if IsBareModifier(k) then None
    else
      var parts := ModifierTokens(e) + [k];
      if Separator !in k then
        SplitJoin(parts, Separator);
        Some(Join(parts, Separator))
      else
        Some(Join(parts, Separator))
  }

  lemma {:induction false} SplitWithoutSeparator(p: string, sep: char)
    requires sep !in p
    ensures Split(p, sep) == [p]
    decreases |p|
  {
    if |p| > 0 {
      SplitWithoutSeparator(p[1..], sep);
      assert [p[0]] + p[1..] == p;
    }
  }

  lemma {:induction false} SplitAtFirstSeparator(p: string, rest: string, sep: char)
    requires sep !in p
    ensures Split(p + [sep] + rest, sep) == [p] + Split(rest, sep)
    decreases |p|
  {
    var s := p + [sep] + rest;
    if |p| == 0 {
      assert s[0] == sep && s[1..] == rest;
    } else {
      assert s[0] == p[0] && s[1..] == p[1..] + [sep] + rest;
      SplitAtFirstSeparator(p[1..], rest, sep);
      assert [p[0]] + p[1..] == p;
    }
  }

  /** Joining tokens that do not contain the separator and splitting again gives the tokens back. */
  lemma {:induction false} SplitJoin(parts: seq<string>, sep: char)
    requires |parts| >= 1
    requires forall i :: 0 <= i < |parts| ==> sep !in parts[i]
    ensures Split(Join(parts, sep), sep) == parts
    decreases |parts|
  {
    if |parts| == 1 {
      SplitWithoutSeparator(parts[0], sep);
    } else {
      SplitJoin(parts[1..], sep);
      SplitAtFirstSeparator(parts[0], Join(parts[1..], sep), sep);
      assert [parts[0]] + parts[1..] == parts;
    }
  }

  /** A string whose first two characters are not "Ar" does not start with "Arrow". */
  lemma NotArrowPrefixed(s: string)
    requires |s| < |ArrowPrefix| || s[0] != 'A' || s[1] != 'r'
    ensures !(ArrowPrefix <= s)
  {
  }

  /**
   * A normalised key name is normalised again to itself, for every key name that does
   * not start with "Arrow" and for the four arrow keys (no DOM key name starts with
   * "ArrowArrow").
   */
  lemma NormalizeKeyFixedPoint(key: string)
    requires !(ArrowPrefix <= key) || key in ["ArrowUp", "ArrowDown", "ArrowLeft", "ArrowRight"]
    ensures NormalizeKey(NormalizeKey(key)) == NormalizeKey(key)
  {
    var r := NormalizeKey(key);
    if key == " " {
      assert r == "Space";
      NotArrowPrefixed(r);
    } else if ArrowPrefix <= key {
      if key == "ArrowUp" {
        assert r == "Up";
      } else if key == "ArrowDown" {
        assert r == "Down";
      } else if key == "ArrowLeft" {
        assert r == "Left";
      } else {
        assert r == "Right";
      }
      NotArrowPrefixed(r);
    } else if |key| == 1 {
      NotArrowPrefixed(r);
    }
  }

  /**
   * Exactly the modifier key names, with or without an "Arrow" prefix, normalise to a
   * bare modifier; every other key press completes a chord.
   */
  lemma BareModifierExactly(key: string)
    ensures IsBareModifier(NormalizeKey(key)) <==>
              IsBareModifier(key) || (ArrowPrefix <= key && IsBareModifier(key[|ArrowPrefix|..]))
  {
    if IsBareModifier(key) {
      assert key[0] != 'A' || key[1] != 'r';
      NotArrowPrefixed(key);
    }
  }

  /** Ctrl+Shift+k is captured as "Ctrl+Shift+K" (the handler emits "Ctrl", not "Control"). */
  lemma CtrlShiftK()
    ensures ChordOf(KeyEvent(true, false, true, false, "k")) == Some("Ctrl+Shift+K")
  {
    var e := KeyEvent(true, false, true, false, "k");
    NotArrowPrefixed("k");
    assert NormalizeKey("k") == "K";
    var parts := ["Ctrl", "Shift", "K"];
    assert ModifierTokens(e) + [NormalizeKey(e.key)] == parts;
    assert Join(parts[2..], Separator) == "K";
    assert Join(parts[1..], Separator) == "Shift+K";
    assert Join(parts, Separator) == "Ctrl+Shift+K";
  }

  /** The "+" key itself, pressed with Shift, is captured as "Shift++". */
  lemma PlusKeyChord()
    ensures ChordOf(KeyEvent(false, false, true, false, "+")) == Some("Shift++")
  {
    var e := KeyEvent(false, false, true, false, "+");
    NotArrowPrefixed("+");
    assert NormalizeKey("+") == "+";
    var parts := ["Shift", "+"];
    assert ModifierTokens(e) + [NormalizeKey(e.key)] == parts;
    assert Join(parts[1..], Separator) == "+";
    assert Join(parts, Separator) == "Shift++";
  }

  /** "Shift++" does not split back into one modifier and one base-key token. */
  lemma PlusChordSplit()
    ensures Split("Shift++", Separator) == ["Shift", "", ""]
  {
    assert "Shift++" == "Shift" + [Separator] + "+";
    SplitAtFirstSeparator("Shift", "+", Separator);
    assert "+" == "" + [Separator] + "";
    SplitAtFirstSeparator("", "", Separator);
  }

  /**
   * The key name "Arrow" alone would leave an empty base-key token. No DOM key carries
   * that name, so the handler never meets this input; it marks where the prefix rule ends.
   */
  lemma BareArrowChord()
    ensures ChordOf(KeyEvent(true, false, false, false, "Arrow")) == Some("Ctrl+")
  {
    var e := KeyEvent(true, false, false, false, "Arrow");
    assert ArrowPrefix <= "Arrow";
    assert NormalizeKey("Arrow") == "";
    var parts := ["Ctrl", ""];
    assert ModifierTokens(e) + [NormalizeKey(e.key)] == parts;
    assert Join(parts[1..], Separator) == "";
    assert Join(parts, Separator) == "Ctrl+";
  }

  /**
   * The capture session. `active` says whether the keydown listener is attached; `accel`
   * is the most recent complete chord.
   */
  class CaptureSession {
    var accel: string
    var active: bool

    constructor (active: bool)
      ensures this.active == active && accel == ""
    {
      this.active := active;
      accel := "";
    }

    /** Attaching or detaching the listener; detaching does not clear `accel`. */
    method SetActive(active: bool)
      modifies this`active
      ensures this.active == active && accel == old(accel)
    {
      this.active := active;
    }

    /**
     * The keydown handler. While the session is inactive no listener is attached and the
     * event has no effect. A bare modifier key leaves `accel` as it was; any other key
     * replaces `accel` by the chord of this event alone.
     */
    method KeyDown(e: KeyEvent)
      modifies this`accel
      ensures !active ==> accel == old(accel)
      ensures active && IsBareModifier(NormalizeKey(e.key)) ==> accel == old(accel)
      ensures active && !IsBareModifier(NormalizeKey(e.key)) ==> Some(accel) == ChordOf(e)
    {
      if !active {
        return;
      }
      var parts: seq<string> := [];
      if e.ctrlKey { parts := parts + ["Ctrl"]; }
      ghost var ctrl := parts;
      if e.altKey { parts := parts + ["Alt"]; }
      assert parts == ctrl + (if e.altKey then ["Alt"] else []);
      ghost var alt := parts;
      if e.shiftKey { parts := parts + ["Shift"]; }
      assert parts == alt + (if e.shiftKey then ["Shift"] else []);
      ghost var shift := parts;
      if e.metaKey { parts := parts + ["Super"]; }
      assert parts == shift + (if e.metaKey then ["Super"] else []);
      assert parts == ModifierTokens(e);
      var k := NormalizeKey(e.key);
      if !IsBareModifier(k) {
        parts := parts + [k];
        accel := Join(parts, Separator);
      }
    }

    method Clear()
      modifies this`accel
      ensures accel == ""
    {
      accel := "";
    }
  }
}
