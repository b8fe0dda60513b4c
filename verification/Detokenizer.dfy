/**
 Streaming detokenisation.

 Each token stands for some bytes; a character may span tokens.  The detokeniser decodes a sliding
 window and releases text only when it no longer ends in an incomplete character.
 */
module Detokenizer {
  import opened Prelude
  import opened Transformer
  import opened Utf8

  /** The bytes of every token. */
  type Vocabulary = Token -> Bytes

  function BytesOf(tok: Vocabulary, ids: seq<Token>): Bytes {
    if ids == [] then [] else BytesOf(tok, Init(ids)) + tok(Last(ids))
  }

  /** The tokenizer's decode: join the bytes, decode with replacement. */
  function TextOf(tok: Vocabulary, ids: seq<Token>): Text {
    Decode(BytesOf(tok, ids))
  }

  predicate CleanIds(tok: Vocabulary, ids: seq<Token>) {
    Clean(BytesOf(tok, ids))
  }

  /** ids pushed so far; the window starts at `prefix`; ids before `read` were released as text. */
  datatype State = State(ids: seq<Token>, prefix: nat, read: nat) {
    predicate InBounds() {
      prefix <= read <= |ids|
    }

    function WindowText(tok: Vocabulary): Text
      requires InBounds()
    {
      TextOf(tok, ids[prefix..])
    }

    function ReadText(tok: Vocabulary): Text
      requires InBounds()
    {
      TextOf(tok, ids[prefix..read])
    }

    /** Both cuts fall where the text before them is final. */
    predicate Valid(tok: Vocabulary) {
      InBounds() && CleanIds(tok, ids[..prefix]) && CleanIds(tok, ids[..read])
    }
  }

  const START := State([], 0, 0)

  function Drop(text: Text, n: nat): Text {
    if n <= |text| then text[n..] else []
  }

  function Pushed(tok: Vocabulary, d: State, id: Token): (State, Text)
    requires d.InBounds()
  {
    var d' := d.(ids := d.ids + [id]);
    var prefixText, newText := d'.ReadText(tok), d'.WindowText(tok);
    if |newText| > |prefixText| && Last(newText) != REPLACEMENT
    then (d'.(prefix := d'.read, read := |d'.ids|), Drop(newText, |prefixText|))
    else (d', [])
  }

  function Flushed(tok: Vocabulary, d: State): (State, Text)
    requires d.InBounds()
  {
    (d.(prefix := |d.ids|, read := |d.ids|), Drop(d.WindowText(tok), |d.ReadText(tok)|))
  }

  // ------------------------------------------------------------------ cutting token lists

  lemma {:induction false} BytesConcat(tok: Vocabulary, a: seq<Token>, b: seq<Token>)
    ensures BytesOf(tok, a + b) == BytesOf(tok, a) + BytesOf(tok, b)
  {
    if b == [] {
      assert a + b == a;
    } else {
      BytesConcat(tok, a, Init(b));
      assert Init(a + b) == a + Init(b);
    }
  }

  lemma TextSplits(tok: Vocabulary, a: seq<Token>, b: seq<Token>)
    requires CleanIds(tok, a)
    ensures TextOf(tok, a + b) == TextOf(tok, a) + TextOf(tok, b)
    ensures CleanIds(tok, a + b) <==> CleanIds(tok, b)
  {
    BytesConcat(tok, a, b);
    DecodeSplits(BytesOf(tok, a), BytesOf(tok, b));
  }

  /** What the window shows beyond the part already read is exactly the text not yet released. */
  lemma WindowShowsRest(tok: Vocabulary, d: State)
    requires d.Valid(tok)
    ensures d.WindowText(tok) == d.ReadText(tok) + TextOf(tok, d.ids[d.read..])
    ensures Drop(d.WindowText(tok), |d.ReadText(tok)|) == TextOf(tok, d.ids[d.read..])
    ensures TextOf(tok, d.ids) == TextOf(tok, d.ids[..d.read]) + TextOf(tok, d.ids[d.read..])
    ensures CleanIds(tok, d.ids) <==> CleanIds(tok, d.ids[d.prefix..])
    ensures CleanIds(tok, d.ids) <==> CleanIds(tok, d.ids[d.read..])
  {
    var front, mid, rest := d.ids[..d.prefix], d.ids[d.prefix..d.read], d.ids[d.read..];
    assert d.ids[..d.read] == front + mid && d.ids[d.prefix..] == mid + rest;
    assert d.ids == front + (mid + rest) && d.ids == d.ids[..d.read] + rest;
    TextSplits(tok, front, mid);
    TextSplits(tok, mid, rest);
    TextSplits(tok, front, mid + rest);
    TextSplits(tok, d.ids[..d.read], rest);
  }

  // ------------------------------------------------------------------ one push

  /**
   A push releases exactly the text between the old and the new read mark; afterwards nothing is held
   back if and only if the text so far does not end in U+FFFD.
   */
  lemma PushReleases(tok: Vocabulary, d: State, id: Token)
    requires d.Valid(tok)
    ensures var (d', text) := Pushed(tok, d, id);
      && d'.ids == d.ids + [id] && d'.Valid(tok)
      && TextOf(tok, d'.ids[..d'.read]) == TextOf(tok, d.ids[..d.read]) + text
      && (TextOf(tok, d'.ids[..d'.read]) == TextOf(tok, d'.ids) <==> CleanIds(tok, d'.ids))
  {
    var e := d.(ids := d.ids + [id]);
    assert e.ids[..d.prefix] == d.ids[..d.prefix] && e.ids[..d.read] == d.ids[..d.read];
    WindowShowsRest(tok, e);
    var (d', text) := Pushed(tok, d, id);
    assert e.ids[..|e.ids|] == e.ids;
    if TextOf(tok, e.ids[..e.read]) == TextOf(tok, e.ids) {
      assert CleanIds(tok, e.ids);
    }
  }

  lemma FlushReleases(tok: Vocabulary, d: State)
    requires d.Valid(tok)
    ensures TextOf(tok, d.ids) == TextOf(tok, d.ids[..d.read]) + Flushed(tok, d).1
  {
    WindowShowsRest(tok, d);
  }

  // ------------------------------------------------------------------ a whole stream

  /** State and released text after pushing every id in turn. */
  function PushAll(tok: Vocabulary, ids: seq<Token>): (r: (State, Text))
    ensures r.0.InBounds()
  {
    if ids == [] then (START, [])
    else
      var (d, text) := PushAll(tok, Init(ids));
      var (d', more) := Pushed(tok, d, Last(ids));
      (d', text + more)
  }

  lemma {:induction false} PushAllReleases(tok: Vocabulary, ids: seq<Token>)
    ensures var (d, text) := PushAll(tok, ids);
      d.ids == ids && d.Valid(tok) && text == TextOf(tok, ids[..d.read])
  {
    hide Pushed, TextOf, CleanIds;
    if ids == [] {
      StartValid(tok);
    } else {
      PushAllReleases(tok, Init(ids));
      PushReleases(tok, PushAll(tok, Init(ids)).0, Last(ids));
      assert ids == Init(ids) + [Last(ids)];
    }
  }

  lemma StartValid(tok: Vocabulary)
    ensures START.Valid(tok) && TextOf(tok, []) == []
  {
  }

  /** Everything released by the pushes, and what flush adds, is the plain decode of the whole list. */
  lemma StreamEqualsDecode(tok: Vocabulary, ids: seq<Token>)
    ensures var (d, text) := PushAll(tok, ids); text + Flushed(tok, d).1 == TextOf(tok, ids)
  {
    PushAllReleases(tok, ids);
    FlushReleases(tok, PushAll(tok, ids).0);
  }

  /** Released text is never taken back: however the stream goes on, it stays a prefix of the decode. */
  lemma ReleasedIsFinal(tok: Vocabulary, ids: seq<Token>, more: seq<Token>)
    ensures PushAll(tok, ids).1 <= TextOf(tok, ids + more)
  {
    hide PushAll, TextOf, CleanIds;
    PushAllReleases(tok, ids);
    var read := PushAll(tok, ids).0.read;
    assert ids + more == ids[..read] + (ids[read..] + more);
    TextSplits(tok, ids[..read], ids[read..] + more);
  }

  /** All but a trailing incomplete character is out: nothing is held back unless the text ends in U+FFFD. */
  lemma NothingHeldBackIff(tok: Vocabulary, ids: seq<Token>)
    ensures PushAll(tok, ids).1 == TextOf(tok, ids) <==> CleanIds(tok, ids)
  {
    hide Pushed, TextOf, CleanIds;
    PushAllReleases(tok, ids);
    if ids == [] {
      StartValid(tok);
    } else {
      PushAllReleases(tok, Init(ids));
      PushReleases(tok, PushAll(tok, Init(ids)).0, Last(ids));
      assert ids == Init(ids) + [Last(ids)];
    }
  }

  /**
   A stream that spells a well-formed text is reproduced exactly, however its characters are cut into
   tokens, and at no point does a push release a character that is not in the text.
   */
  lemma WellFormedStream(tok: Vocabulary, ids: seq<Token>, n: nat, text: Text)
    requires (forall c :: c in text ==> Scalar(c)) && BytesOf(tok, ids) == Encode(text) && n <= |ids|
    ensures var (d, out) := PushAll(tok, ids); out + Flushed(tok, d).1 == text
    ensures PushAll(tok, ids[..n]).1 <= text
  {
    DecodeEncode(text);
    StreamEqualsDecode(tok, ids);
    assert ids == ids[..n] + ids[n..];
    ReleasedIsFinal(tok, ids[..n], ids[n..]);
  }

  // ------------------------------------------------------------------ the object

  class IncrementalDetokenizer {
    const tok: Vocabulary
    var ids: seq<Token>
    var prefix: nat
    var read: nat

    function View(): State
      reads this
    {
      State(ids, prefix, read)
    }

    constructor (tok: Vocabulary)
      ensures this.tok == tok && View() == START && View().Valid(tok)
    {
      this.tok := tok;
      ids, prefix, read := [], 0, 0;
    }

    method Push(id: Token) returns (text: Text)
      requires View().Valid(tok)
      modifies this
      ensures (View(), text) == Pushed(tok, old(View()), id) && View().Valid(tok)
      ensures TextOf(tok, ids[..read]) == old(TextOf(tok, ids[..read])) + text
    {
      PushReleases(tok, View(), id);
      ids := ids + [id];
      var prefixText := TextOf(tok, ids[prefix..read]);
      var newText := TextOf(tok, ids[prefix..]);
      if |newText| > |prefixText| && Last(newText) != REPLACEMENT {
        prefix, read := read, |ids|;
        return newText[|prefixText|..];
      }
      return [];
    }

    method Flush() returns (text: Text)
      requires View().Valid(tok)
      modifies this
      ensures (View(), text) == Flushed(tok, old(View()))
      ensures TextOf(tok, ids) == old(TextOf(tok, ids[..read])) + text && ids == old(ids)
    {
      FlushReleases(tok, View());
      WindowShowsRest(tok, View());
      var prefixText := TextOf(tok, ids[prefix..read]);
      var newText := TextOf(tok, ids[prefix..]);
      prefix, read := |ids|, |ids|;
      text := newText[|prefixText|..];
    }
  }
}
