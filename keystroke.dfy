/** What one simulated keystroke does to the editor, as far as the content
    script's own code determines it: where `focusEditor` puts the caret,
    how `typeCharacter` changes the text through the selection range (or
    appends when there is no range), and the `code` of the synthetic
    keyboard events. Event dispatch itself, and the host page's reaction
    to it, are not part of this module. */
module Keystroke {
  import opened Wrappers

  /** A child of the editor element: a text node, or any other node with
      the text it contains. */
  datatype ChildNode = TextNode(data: string) | OtherNode(textContent: string)

  /** A DOM range boundary as `focusEditor` sets it: inside a text child at
      an offset, just after a child, or at offset 0 of the editor itself. */
  datatype Boundary = InText(child: nat, offset: nat) | AfterChild(child: nat) | EditorStart

  function NodeText(n: ChildNode): string
  {
    match n
    case TextNode(data) => data
    case OtherNode(t) => t
  }

  /** The editor's `textContent`: its children's text, in order. */
  function TextContent(children: seq<ChildNode>): string
    decreases |children|
  {
    if children == [] then []
    else TextContent(children[..|children| - 1]) + NodeText(children[|children| - 1])
  }

  /** The caret `focusEditor` chooses: the end of the last child when it
      is a text node, just after the last child otherwise, and offset 0
      of an empty editor. */
  function CaretPlacement(children: seq<ChildNode>): Boundary
  {
    if |children| > 0 then
      var last := |children| - 1;
      if children[last].TextNode? then InText(last, |children[last].data|)
      else AfterChild(last)
    else EditorStart
  }

  ghost predicate BoundaryInside(children: seq<ChildNode>, b: Boundary)
  {
    match b
    case InText(c, o) => c < |children| && children[c].TextNode? && o <= |children[c].data|
    case AfterChild(c) => c < |children|
    case EditorStart => true
  }

  /** The character offset within `TextContent(children)` that a boundary
      denotes. */
  function BoundaryOffset(children: seq<ChildNode>, b: Boundary): nat
    requires BoundaryInside(children, b)
  {
    match b
    case InText(c, o) => |TextContent(children[..c])| + o
    case AfterChild(c) => |TextContent(children[..c + 1])|
    case EditorStart => 0
  }

  /** Whatever the editor's children, `focusEditor` puts the caret at the
      end of the editor's text. */
  lemma CaretPlacedAtEnd(children: seq<ChildNode>)
    ensures BoundaryInside(children, CaretPlacement(children))
    ensures BoundaryOffset(children, CaretPlacement(children)) == |TextContent(children)|
  {
    if |children| > 0 {
      assert children[..|children|] == children;
    }
  }

  /** The editing surface reduced to its text and the live selection
      range, collapsed at a character offset; `None` when the selection
      has no range (`rangeCount == 0`). */
  datatype Surface = Surface(text: string, range: Option<nat>)

  ghost predicate WellFormed(s: Surface)
  {
    s.range.Some? ==> s.range.value <= |s.text|
  }

  /** Where the next character lands: at the caret, or at the end when
      there is no range. */
  function InsertionPoint(s: Surface): nat
    requires WellFormed(s)
  {
    if s.range.Some? then s.range.value else |s.text|
  }

  /** The text effect of `typeCharacter`: with a range, a text node holding
      `c` is inserted at the caret and the caret moves just after it;
      without one, `c` is appended to `textContent`. */
  function TypeChar(s: Surface, c: char): (r: Surface)
    requires WellFormed(s)
    ensures WellFormed(r)
    ensures var p := InsertionPoint(s);
            |r.text| == |s.text| + 1 && r.text[p] == c &&
            r.text[..p] == s.text[..p] && r.text[p + 1..] == s.text[p..]
    ensures r.range.Some? <==> s.range.Some?
    ensures r.range.Some? ==> r.range.value == s.range.value + 1
  {
    match s.range
    case Some(k) => Surface(s.text[..k] + [c] + s.text[k..], Some(k + 1))
    case None => Surface(s.text + [c], None)
  }

  /** Typing the characters of `str` one after the other. */
  function TypeString(s: Surface, str: string): Surface
    requires WellFormed(s)
    decreases |str|
  {
    if str == [] then s else TypeString(TypeChar(s, str[0]), str[1..])
  }

  /** Successive keystrokes insert a whole string at the caret, in order,
      and leave the caret after it; without a range they append it. */
  lemma {:induction false} TypeStringInserts(s: Surface, str: string)
    requires WellFormed(s)
    ensures var p := InsertionPoint(s);
            TypeString(s, str).text == s.text[..p] + str + s.text[p..]
    ensures TypeString(s, str).range ==
              if s.range.Some? then Some(s.range.value + |str|) else None
    decreases |str|
  {
    if str != [] {
      var p := InsertionPoint(s);
      var c, rest := str[0], str[1..];
      var s' := TypeChar(s, c);
      assert TypeString(s, str) == TypeString(s', rest);
      TypeStringInserts(s', rest);
      assert InsertionPoint(s') == p + 1;
      var head, tail := s'.text[..p + 1], s'.text[p + 1..];
      assert head == s.text[..p] + [c] by {
        assert head[..p] == s'.text[..p] && head[p] == c;
      }
      assert tail == s.text[p..];
      assert [c] + rest == str;
      assert TypeString(s, str).text == s.text[..p] + ([c] + rest) + s.text[p..];
    }
  }

  /** The editor as `typeCharacter` mutates it: its `textContent` and the
      window's selection range. */
  class EditorSurface {
    var textContent: string
    var range: Option<nat>

    function Snapshot(): Surface
      reads this
    {
      Surface(textContent, range)
    }

    ghost predicate Valid()
      reads this
    {
      WellFormed(Snapshot())
    }

    constructor (children: seq<ChildNode>)
      ensures Valid()
      ensures textContent == TextContent(children) && range.None?
    {
      textContent := TextContent(children);
      range := None;
    }

    /** `focusEditor`'s caret placement: the range is replaced by one at
        the boundary `CaretPlacement` chooses, that is, at the end of the
        text. */
    method FocusEditor(children: seq<ChildNode>)
      requires textContent == TextContent(children)
      modifies this
      ensures Valid()
      ensures textContent == old(textContent)
      ensures range == Some(|textContent|)
    {
      CaretPlacedAtEnd(children);
      range := Some(BoundaryOffset(children, CaretPlacement(children)));
    }

    /** The text effect of `typeCharacter(editor, c)`. */
    method TypeCharacter(c: char)
      requires Valid()
      modifies this
      ensures Valid()
      ensures Snapshot() == TypeChar(old(Snapshot()), c)
    {
      if range.Some? {
        var k := range.value;
        textContent := textContent[..k] + [c] + textContent[k..];
        range := Some(k + 1);
      } else {
        textContent := textContent + [c];
      }
    }
  }

  /** `toUpperCase` restricted to ASCII letters. */
  function UpperAscii(c: char): char
  {
    if 'a' <= c <= 'z' then (c as int - 32) as char else c
  }

  /** The `code` field of the synthetic keyboard events: `"Key"` followed
      by the upper-cased key when the key is one character long, by the
      key itself otherwise. */
  function KeyCode(key: string): (code: string)
    ensures |code| == 3 + |key| && code[..3] == "Key"
    ensures |key| != 1 ==> code[3..] == key
    ensures |key| == 1 && 'a' <= key[0] <= 'z' ==>
              'A' <= code[3] <= 'Z' && code[3] as int == key[0] as int - 32
    ensures |key| == 1 && !('a' <= key[0] <= 'z') ==> code[3..] == key
  {
    if |key| == 1 then "Key" + [UpperAscii(key[0])] else "Key" + key
  }

  /** The fields of the keydown, keypress and keyup events sent for one
      character. */
  datatype KeyEventInit = KeyEventInit(key: string, code: string, keyCode: int)

  function KeyEventFor(c: char): (k: KeyEventInit)
    ensures k.key == [c] && k.keyCode == c as int
    ensures k.code == KeyCode([c])
  {
    KeyEventInit([c], KeyCode([c]), c as int)
  }

  /** A letter gets the same `code` in either case: the code names the
      physical key. */
  lemma KeyCodeIgnoresCase(c: char)
    requires 'a' <= c <= 'z'
    ensures KeyCode([c]) == KeyCode([(c as int - 32) as char])
  {
  }
}
