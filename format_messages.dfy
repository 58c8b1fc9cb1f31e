/**
 * `formatMessages`: project each stored chat item to its id, role and the
 * text of its text parts.
 */
module FormatMessages {
  import opened Strings
  import opened UIMessages

  /** A stored item; only its message is read. */
  datatype Item = Item(message: UIMessage)

  datatype Formatted = Formatted(id: MessageId, role: string, content: string)

  /** The texts of the parts whose type is "text", in order. */
  function Texts(parts: seq<UIPart>): seq<string>
    decreases |parts|
  {
    if parts == [] then []
    else (if parts[0].kind == TEXT_KIND then [parts[0].text] else []) + Texts(parts[1..])
  }

  /** The `filter`, `map` and `join('')` pipeline over a message's parts. */
  function Content(parts: seq<UIPart>): string {
    Join(Texts(parts), "")
  }

  function Format(item: Item): Formatted {
    Formatted(item.message.id, item.message.role, Content(item.message.parts))
  }

  function FormatMessages(items: seq<Item>): (out: seq<Formatted>)
    ensures |out| == |items|
    ensures forall i :: 0 <= i < |items| ==>
              out[i].id == items[i].message.id &&
              out[i].role == items[i].message.role &&
              out[i].content == Content(items[i].message.parts)
  {
    seq(|items|, i requires 0 <= i < |items| => Format(items[i]))
  }

  /** The reference reading: walk the parts in order, appending the text of
      each text part and nothing for the others. */
  function Concatenated(parts: seq<UIPart>): string
    decreases |parts|
  {
    if parts == [] then ""
    else (if parts[0].kind == TEXT_KIND then parts[0].text else "") + Concatenated(parts[1..])
  }

  lemma JoinEmptyCons(x: string, xs: seq<string>)
    ensures Join([x] + xs, "") == x + Join(xs, "")
  {
    if xs == [] {
      assert [x] + xs == [x];
    } else {
      JoinCons(x, xs, "");
    }
  }

  /** The content is the in-order concatenation of the text parts' texts. */
  lemma {:induction false} ContentIsConcatenation(parts: seq<UIPart>)
    ensures Content(parts) == Concatenated(parts)
    decreases |parts|
  {
    if parts != [] {
      ContentIsConcatenation(parts[1..]);
      if parts[0].kind == TEXT_KIND {
        JoinEmptyCons(parts[0].text, Texts(parts[1..]));
      } else {
        assert Texts(parts) == Texts(parts[1..]);
      }
    }
  }

  /** A message without text parts formats to the empty string. */
  lemma {:induction false} ContentWithoutText(parts: seq<UIPart>)
    requires forall i :: 0 <= i < |parts| ==> parts[i].kind != TEXT_KIND
    ensures Content(parts) == ""
    decreases |parts|
  {
    if parts != [] {
      ContentWithoutText(parts[1..]);
      assert Texts(parts) == Texts(parts[1..]);
    }
  }

  /** Content distributes over splitting the parts. */
  lemma {:induction false} ConcatenatedAppend(a: seq<UIPart>, b: seq<UIPart>)
    ensures Concatenated(a + b) == Concatenated(a) + Concatenated(b)
    decreases |a|
  {
    if a != [] {
      ConcatenatedAppend(a[1..], b);
      assert (a + b)[1..] == a[1..] + b;
    } else {
      assert a + b == b;
    }
  }

  lemma ContentAppend(a: seq<UIPart>, b: seq<UIPart>)
    ensures Content(a + b) == Content(a) + Content(b)
  {
    ContentIsConcatenation(a + b);
    ContentIsConcatenation(a);
    ContentIsConcatenation(b);
    ConcatenatedAppend(a, b);
  }

  /** Formatting is applied message by message. */
  lemma FormatMessagesAppend(a: seq<Item>, b: seq<Item>)
    ensures FormatMessages(a + b) == FormatMessages(a) + FormatMessages(b)
  {
  }
}
