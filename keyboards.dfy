/**
 * Reply keyboards. The bot lays a list of button labels out in rows of three,
 * the first button "primary" and the rest "secondary" unless explicit colours
 * are given (App.get_keyboard), using the messaging library's keyboard builder.
 */
module Keyboards {

  /** One button: its label and its colour name ("primary", "secondary", "positive", "negative"). */
  datatype Button = Button(caption: string, color: string)

  /** A keyboard as the platform receives it: rows of buttons; no rows is the empty keyboard. */
  datatype Keyboard = Keyboard(rows: seq<seq<Button>>)

  /** The keyboard that hides the buttons (the builder's `get_empty_keyboard`). */
  function EmptyKeyboard(): Keyboard {
    Keyboard([])
  }

  /**
   * The messaging library's keyboard builder: it starts with one empty line,
   * `add_line` opens a new line and `add_button` appends to the last one.
   */
  class KeyboardBuilder {
    var lines: seq<seq<Button>>

    constructor ()
      ensures lines == [[]]
    {
      lines := [[]];
    }

    method AddLine()
      modifies this
      ensures lines == old(lines) + [[]]
    {
      lines := lines + [[]];
    }

    method AddButton(caption: string, color: string)
      requires |lines| > 0
      modifies this
      ensures |lines| == |old(lines)|
      ensures lines == old(lines)[..|old(lines)| - 1] + [old(lines)[|old(lines)| - 1] + [Button(caption, color)]]
    {
      lines := lines[..|lines| - 1] + [lines[|lines| - 1] + [Button(caption, color)]];
    }

    /** The keyboard built so far (the builder's `get_keyboard`). */
    function Built(): Keyboard
      reads this
    {
      Keyboard(lines)
    }
  }

  /** The colour button `i` gets: `colors[i]` when colours are given, else primary first and secondary after. */
  function ColorAt(i: nat, colors: seq<string>): string
    requires |colors| == 0 || i < |colors|
  {
    if |colors| > 0 then colors[i] else if i == 0 then "primary" else "secondary"
  }

  /** The buttons in input order, each with the colour it is given. */
  function Colored(labels: seq<string>, colors: seq<string>): (r: seq<Button>)
    requires |colors| == 0 || |colors| >= |labels|
    ensures |r| == |labels|
  {
    seq(|labels|, i requires 0 <= i < |labels| => Button(labels[i], ColorAt(i, colors)))
  }

  /** Cuts a non-empty sequence into consecutive rows of three; only the last row may be shorter. */
  function Chunks<T>(s: seq<T>): (r: seq<seq<T>>)
    requires |s| > 0
    ensures |r| > 0
    decreases |s|
  {
    if |s| <= 3 then [s] else [s[..3]] + Chunks(s[3..])
  }

  /** Concatenation of rows. */
  function Flatten<T>(rows: seq<seq<T>>): seq<T> {
    if rows == [] then [] else rows[0] + Flatten(rows[1..])
  }

  /** The keyboard App.get_keyboard produces for `labels` and `colors`. */
  function Layout(labels: seq<string>, colors: seq<string>): Keyboard
    requires |colors| == 0 || |colors| >= |labels|
  {
    if labels == [] then EmptyKeyboard() else Keyboard(Chunks(Colored(labels, colors)))
  }

  /**
   * App.get_keyboard: one pass over the labels, opening a new line before
   * every third button after the first.
   */
  method GetKeyboard(labels: seq<string>, colors: seq<string>) returns (kb: Keyboard)
    requires |colors| == 0 || |colors| >= |labels|
    ensures kb == Layout(labels, colors)
  {
    var keyboard := new KeyboardBuilder();
    if labels == [] {
      return EmptyKeyboard();
    }
    ghost var all := Colored(labels, colors);
    for i := 0 to |labels|
      invariant i == 0 ==> keyboard.lines == [[]]
      invariant i > 0 ==> keyboard.lines == Chunks(all[..i])
    {
      ghost var before := keyboard.lines;
      if i > 0 && i % 3 == 0 {
        keyboard.AddLine();
        assert keyboard.lines[..|before|] == before;
        assert keyboard.lines[|keyboard.lines| - 1] == [];
      }
      var color := if i == 0 then "primary" else "secondary";
      if |colors| > 0 {
        color := colors[i];
      }
      assert Button(labels[i], color) == all[i];
      keyboard.AddButton(labels[i], color);
      if i == 0 {
        assert [] + [all[0]] == [all[0]];
        assert all[..1] == [all[0]];
        assert Chunks(all[..1]) == [all[..1]];
        assert keyboard.lines == Chunks(all[..1]);
      } else {
        ghost var done := all[..i];
        assert |done| == i;
        assert all[..i + 1] == done + [all[i]];
        ChunksSnoc(done, all[i]);
        if i % 3 == 0 {
          assert [] + [all[i]] == [all[i]];
          assert keyboard.lines == before + [[all[i]]];
        } else {
          assert keyboard.lines == before[..|before| - 1] + [before[|before| - 1] + [all[i]]];
        }
      }
    }
    assert all[..|labels|] == all;
    kb := keyboard.Built();
  }

  // ---- Properties ----

  /**
   * Appending one element to a chunked sequence opens a new row exactly when
   * the last row is full, and otherwise extends the last row.
   */
  lemma {:induction false} ChunksSnoc<T>(s: seq<T>, x: T)
    requires |s| > 0
    ensures |s| % 3 == 0 ==> Chunks(s + [x]) == Chunks(s) + [[x]]
    ensures |s| % 3 != 0 ==>
      var c := Chunks(s);
      Chunks(s + [x]) == c[..|c| - 1] + [c[|c| - 1] + [x]]
    decreases |s|
  {
    if |s| < 3 {
      assert Chunks(s + [x]) == [s + [x]];
    } else if |s| == 3 {
      assert (s + [x])[..3] == s;
      assert (s + [x])[3..] == [x];
      assert Chunks(s + [x]) == [s] + Chunks([x]);
    } else {
      var t := s[3..];
      assert (s + [x])[..3] == s[..3];
      assert (s + [x])[3..] == t + [x];
      assert Chunks(s + [x]) == [s[..3]] + Chunks(t + [x]);
      var c, c' := Chunks(s), Chunks(t);
      assert c == [s[..3]] + c';
      ChunksSnoc(t, x);
      if |s| % 3 != 0 {
        assert c[..|c| - 1] == [s[..3]] + c'[..|c'| - 1];
        assert c[|c| - 1] == c'[|c'| - 1];
      }
    }
  }

  /** Every row holds one to three elements. */
  lemma {:induction false} ChunksRowSizes<T>(s: seq<T>)
    requires |s| > 0
    ensures forall k :: 0 <= k < |Chunks(s)| ==> 0 < |Chunks(s)[k]| <= 3
    decreases |s|
  {
    if |s| > 3 {
      ChunksRowSizes(s[3..]);
    }
  }

  /** Reading the rows one after another gives back the input, in order. */
  lemma {:induction false} ChunksFlatten<T>(s: seq<T>)
    requires |s| > 0
    ensures Flatten(Chunks(s)) == s
    decreases |s|
  {
    if |s| <= 3 {
      assert Flatten([s]) == s + Flatten([]);
    } else {
      ChunksFlatten(s[3..]);
      assert Chunks(s)[1..] == Chunks(s[3..]);
    }
  }

  /** Only the last row may be short: every earlier row is full. */
  lemma {:induction false} ChunksFullRows<T>(s: seq<T>)
    requires |s| > 0
    ensures forall k :: 0 <= k < |Chunks(s)| - 1 ==> |Chunks(s)[k]| == 3
    ensures |Chunks(s)| == (|s| + 2) / 3
    decreases |s|
  {
    if |s| > 3 {
      ChunksFullRows(s[3..]);
    }
  }

  /**
   * The layout App.get_keyboard promises: no buttons gives the empty keyboard;
   * otherwise rows of at most three (all full but the last) which, read in
   * order, are the labels given, the first primary and the others secondary,
   * or `colors[i]` for button i when colours are given.
   */
  lemma LayoutShape(labels: seq<string>, colors: seq<string>)
    requires |colors| == 0 || |colors| >= |labels|
    ensures labels == [] ==> Layout(labels, colors) == EmptyKeyboard()
    ensures labels != [] ==>
      var rows := Layout(labels, colors).rows;
      && |rows| == (|labels| + 2) / 3
      && (forall k :: 0 <= k < |rows| ==> 0 < |rows[k]| <= 3)
      && (forall k :: 0 <= k < |rows| - 1 ==> |rows[k]| == 3)
      && |Flatten(rows)| == |labels|
      && (forall i :: 0 <= i < |labels| ==> Flatten(rows)[i].caption == labels[i])
      && (forall i :: 0 <= i < |labels| && |colors| > 0 ==> Flatten(rows)[i].color == colors[i])
      && (|colors| == 0 ==> Flatten(rows)[0].color == "primary")
      && (forall i :: 0 < i < |labels| && |colors| == 0 ==> Flatten(rows)[i].color == "secondary")
  {
    if labels != [] {
      var all := Colored(labels, colors);
      ChunksRowSizes(all);
      ChunksFullRows(all);
      ChunksFlatten(all);
    }
  }
}
