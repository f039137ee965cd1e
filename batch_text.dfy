/**
 * The text rendering of a statement's batch: the queued SQL strings separated
 * by a newline, a semicolon and a newline.
 */
module BatchText {

  /** What the proxy puts between two batch entries. */
  const Separator: string := "\n;\n"

  /** Reference rendering: the entries joined by `Separator`, with none before the first and none after the last. */
  function Join(items: seq<string>): string
  {
    if |items| == 0 then ""
    else if |items| == 1 then items[0]
    else items[0] + Separator + Join(items[1..])
  }

  /** `items` without its leading empty strings. */
  function DropLeadingEmpty(items: seq<string>): seq<string>
  {
    if |items| == 0 || items[0] != "" then items else DropLeadingEmpty(items[1..])
  }

  /** What `DropLeadingEmpty` keeps is a suffix that starts with a non-empty entry, and what it drops is all empty. */
  lemma {:induction false} DropLeadingEmptyShape(items: seq<string>)
    ensures |DropLeadingEmpty(items)| <= |items|
    ensures DropLeadingEmpty(items) == items[|items| - |DropLeadingEmpty(items)|..]
    ensures DropLeadingEmpty(items) == [] || DropLeadingEmpty(items)[0] != ""
    ensures forall i :: 0 <= i < |items| - |DropLeadingEmpty(items)| ==> items[i] == ""
  {
    if |items| > 0 && items[0] == "" {
      var rest := items[1..];
      DropLeadingEmptyShape(rest);
      var r := DropLeadingEmpty(rest);
      assert DropLeadingEmpty(items) == r;
      assert rest[|rest| - |r|..] == items[|items| - |r|..];
      forall i | 0 <= i < |items| - |r|
        ensures items[i] == ""
      {
        if i > 0 {
          assert items[i] == rest[i - 1];
        }
      }
    }
  }

  /** Joining one more entry puts exactly one separator before it, unless nothing came before. */
  lemma {:induction false} JoinSnoc(items: seq<string>, x: string)
    ensures Join(items + [x]) == if items == [] then x else Join(items) + Separator + x
  {
    if |items| > 1 {
      assert (items + [x])[1..] == items[1..] + [x];
      JoinSnoc(items[1..], x);
    } else if |items| == 1 {
      assert (items + [x])[1..] == [x];
    }
  }

  /** The joined text begins with the first entry and ends with the last: no leading or trailing separator. */
  lemma {:induction false} JoinEnds(items: seq<string>)
    requires |items| > 0
    ensures items[0] <= Join(items)
    ensures |items[|items| - 1]| <= |Join(items)|
    ensures Join(items)[|Join(items)| - |items[|items| - 1]|..] == items[|items| - 1]
  {
    if |items| > 1 {
      JoinEnds(items[1..]);
      var rest := Join(items[1..]);
      assert Join(items) == (items[0] + Separator) + rest;
      assert items[1..][|items[1..]| - 1] == items[|items| - 1];
    }
  }

  /** The rendering is empty exactly when every entry is. */
  lemma JoinDroppedEmptyIff(items: seq<string>)
    ensures Join(DropLeadingEmpty(items)) == "" <==> forall i :: 0 <= i < |items| ==> items[i] == ""
  {
    var r := DropLeadingEmpty(items);
    DropLeadingEmptyShape(items);
    if r != [] {
      JoinEnds(r);
      assert items[|items| - |r|] == r[0];
    }
  }

  /** Appending an entry to the batch: how dropping leading empty entries interacts with it. */
  lemma {:induction false} DropLeadingEmptySnoc(items: seq<string>, x: string)
    ensures DropLeadingEmpty(items + [x])
         == if DropLeadingEmpty(items) == [] then DropLeadingEmpty([x]) else DropLeadingEmpty(items) + [x]
  {
    if |items| > 0 {
      assert (items + [x])[0] == items[0];
      if items[0] == "" {
        assert (items + [x])[1..] == items[1..] + [x];
        DropLeadingEmptySnoc(items[1..], x);
      }
    } else {
      assert items + [x] == [x];
    }
  }

  /** One turn of the rendering loop keeps the text equal to the rendering of the entries seen so far. */
  lemma RenderStep(seen: seq<string>, x: string, text: string)
    requires text == Join(DropLeadingEmpty(seen))
    ensures (if |text| > 0 then text + Separator + x else text + x) == Join(DropLeadingEmpty(seen + [x]))
  {
    DropLeadingEmptySnoc(seen, x);
    var done := DropLeadingEmpty(seen);
    DropLeadingEmptyShape(seen);
    if done != [] {
      JoinEnds(done);
      JoinSnoc(done, x);
    }
  }

  /**
   * The rendering loop: a separator is appended before an entry only when the
   * text built so far is non-empty. Leading empty entries therefore vanish
   * without a separator, later empty entries still get one.
   */
  method Render(items: seq<string>) returns (text: string)
    ensures text == Join(DropLeadingEmpty(items))
    ensures (forall i :: 0 <= i < |items| ==> items[i] != "") ==> text == Join(items)
  {
    text := "";
    for i := 0 to |items|
      invariant text == Join(DropLeadingEmpty(items[..i]))
    {
      assert items[..i + 1] == items[..i] + [items[i]];
      RenderStep(items[..i], items[i], text);
      if |text| > 0 {
        text := text + Separator;
      }
      text := text + items[i];
    }
    assert items[..|items|] == items;
  }
}
