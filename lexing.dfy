/**
 * The comment lexer of the CIF tokenizer: a cursor over the input text, the
 * two lexer states with their transition functions, and the driver that
 * pulls one token at a time.
 */
module Lexing {
  import opened CharClass

  datatype Option<T> = None | Some(value: T)

  datatype TokenKind = Comment

  datatype Token = Token(lexeme: string, kind: TokenKind)

  /** The lexer states; Rust boxes one of two unit structs behind `dyn State`. */
  datatype State = StartState | CommentState

  datatype TransitionType = EmitToken(token: Token, end: bool) | Advance | End

  datatype Transition = Transition(state: State, kind: TransitionType)

  /** What asking a state for a transition gives: a transition, or the panic
      of a `todo!()` arm on the character the state does not handle. */
  datatype Consumed = Transitioned(t: Transition) | Todo(c: char)

  /** What one call of `Lexer::next` gives: its `Option<Token>`, or the panic
      raised by a `todo!()` arm on character `c`. */
  datatype NextResult = Returned(item: Option<Token>) | Panicked(c: char)

  /** Reads the input by character index. `offset` is the absolute index of
      the next character; `position` is where the pending lexeme starts. */
  class Cursor {
    const input: string
    var position: nat
    var offset: nat

    constructor (input: string)
      ensures this.input == input && position == 0 && offset == 0
    {
      this.input := input;
      position := 0;
      offset := 0;
    }

    /** The character at index `offset`, or `None` once the input is used up. */
    function Peek(): (r: Option<char>)
      reads this
      ensures r.None? <==> offset >= |input|
      ensures r.Some? ==> offset < |input| && r.value == input[offset]
    {
      if offset < |input| then Some(input[offset]) else None
    }

    /** The pending lexeme; the slice panics unless its bounds are in order. */
    function Lexeme(): (s: string)
      reads this
      requires position <= offset <= |input|
      ensures |s| == offset - position
      ensures input[..position] + s + input[offset..] == input
    {
      assert input == input[..position] + input[position..offset] + input[offset..];
      input[position..offset]
    }

    /** Starts the next lexeme where the cursor stands: `position` takes the
        offset and `offset` returns to 0. */
    method Align()
      modifies this
      ensures position == old(offset) && offset == 0
    {
      position := offset;
      offset := 0;
    }

    /** `advace`: moves past one character. */
    method Advance()
      modifies this
      ensures offset == old(offset) + 1 && position == old(position)
    {
      offset := offset + 1;
    }
  }

  /** `StartState::consume`: end of input ends the stream, `#` opens a comment,
      and every other character is left to a `todo!()`. */
  function ConsumeStart(cursor: Cursor): (r: Consumed)
    reads cursor
    ensures r == Transitioned(Transition(StartState, End)) <==> cursor.offset >= |cursor.input|
    ensures r == Transitioned(Transition(CommentState, Advance)) <==>
              cursor.offset < |cursor.input| && cursor.input[cursor.offset] == '#'
    ensures r.Todo? <==> cursor.offset < |cursor.input| && cursor.input[cursor.offset] != '#'
    ensures r.Todo? ==> r.c == cursor.input[cursor.offset]
  {
    match cursor.Peek()
    case None => Transitioned(Transition(StartState, End))
    case Some(c) =>
      if c == '#' then Transitioned(Transition(CommentState, Advance))
      else Todo(c)
  }

  /** `CommentState::consume`: a character a comment may contain is taken,
      end of input emits the lexeme as the last token, and any other character
      is left to a `todo!()`. The `'\n'` arm of the source follows the
      whitespace guard, which already takes `'\n'`, so it never fires and is
      not written here. */
  function ConsumeComment(cursor: Cursor): (r: Consumed)
    reads cursor
    requires cursor.offset < |cursor.input| || cursor.position <= cursor.offset == |cursor.input|
    ensures cursor.offset >= |cursor.input| <==> r.Transitioned? && r.t.kind.EmitToken?
    ensures cursor.offset >= |cursor.input| ==>
              r == Transitioned(Transition(CommentState, EmitToken(Token(cursor.input[cursor.position..cursor.offset], Comment), true)))
    ensures cursor.offset < |cursor.input| ==>
              (r == Transitioned(Transition(CommentState, Advance)) <==> InComment(cursor.input[cursor.offset]))
    ensures cursor.offset < |cursor.input| && !InComment(cursor.input[cursor.offset]) ==>
              r == Todo(cursor.input[cursor.offset])
    ensures cursor.offset < |cursor.input| && cursor.input[cursor.offset] == '\n' ==>
              r == Transitioned(Transition(CommentState, Advance))
  {
    match cursor.Peek()
    case None => Transitioned(Transition(CommentState, EmitToken(Token(cursor.Lexeme(), Comment), true)))
    case Some(c) =>
      if InComment(c) then Transitioned(Transition(CommentState, Advance))
      else Todo(c)
  }

  /** `State::consume`, dispatched on the current state. */
  function Consume(s: State, cursor: Cursor): (r: Consumed)
    reads cursor
    requires s == CommentState ==>
               cursor.offset < |cursor.input| || cursor.position <= cursor.offset == |cursor.input|
    ensures r.Transitioned? && r.t.kind.Advance? ==> cursor.offset < |cursor.input|
    ensures r.Transitioned? && r.t.kind.EmitToken? ==> r.t.kind.end && cursor.offset == |cursor.input|
    ensures r.Transitioned? && r.t.kind.End? ==> s == StartState && r.t.state == StartState
    ensures r.Todo? ==> cursor.offset < |cursor.input| && r.c == cursor.input[cursor.offset]
  {
    match s
    case StartState => ConsumeStart(cursor)
    case CommentState => ConsumeComment(cursor)
  }

  /** The first index at or after `k` whose character a comment may not
      contain, or `|input|` when there is none. */
  ghost function CommentStop(input: string, k: nat): (j: nat)
    requires k <= |input|
    decreases |input| - k
    ensures k <= j <= |input|
    ensures forall i :: k <= i < j ==> InComment(input[i])
    ensures j < |input| ==> !InComment(input[j])
  {
    if k == |input| || !InComment(input[k]) then k else CommentStop(input, k + 1)
  }

  /** The cursor has read `#` and then `k - 1` characters a comment may contain. */
  ghost predicate CommentPrefix(input: string, k: nat) {
    1 <= k <= |input| && input[0] == '#' && forall i :: 1 <= i < k ==> InComment(input[i])
  }

  /** The whole input is one comment: `#` followed only by characters a
      comment may contain. */
  ghost predicate IsComment(input: string) {
    CommentPrefix(input, |input|)
  }

  /** A comment scan that has read a valid prefix up to `k` and stops there
      stops where `CommentStop` says it does. */
  lemma CommentStopAt(input: string, k: nat)
    requires CommentPrefix(input, k)
    requires k == |input| || !InComment(input[k])
    ensures CommentStop(input, 1) == k
  {
  }

  /** A valid comment prefix never runs past where the scan stops. */
  lemma CommentPrefixBound(input: string, k: nat)
    requires CommentPrefix(input, k)
    ensures k <= CommentStop(input, 1)
  {
  }

  /** The iterator over the tokens of one input. */
  class Lexer {
    const cursor: Cursor
    var state: State
    var end: bool

    /** The reachable configurations: before the final token the pending
        lexeme starts at 0 and is the `#` plus comment characters read so
        far; after it, the cursor is aligned at the end of the input. */
    ghost predicate Valid()
      reads this, cursor
    {
      cursor.offset <= |cursor.input| &&
      (end ==> state == CommentState && |cursor.input| > 0 &&
               cursor.position == |cursor.input| && cursor.offset == 0) &&
      (!end ==> cursor.position == 0) &&
      (!end && state == StartState ==> cursor.offset == 0) &&
      (!end && state == CommentState ==> CommentPrefix(cursor.input, cursor.offset))
    }

    constructor (input: string)
      ensures Valid() && fresh(cursor)
      ensures cursor.input == input && cursor.position == 0 && cursor.offset == 0
      ensures state == StartState && !end
    {
      cursor := new Cursor(input);
      state := StartState;
      end := false;
    }

    /** `Iterator::next`. Once `end` is set every call returns `None` and
        changes nothing. From the start state, empty input returns `None`
        and anything but `#` panics; otherwise the comment scan runs to the
        first character a comment may not contain, and panics there, or
        reaches the end of the input and returns the whole input as one
        comment token, setting `end`. */
    method Next() returns (r: NextResult)
      requires Valid()
      modifies this, cursor
      ensures Valid()
      ensures old(end) ==> r == Returned(None) && unchanged(this, cursor)
      ensures !old(end) && old(state) == StartState && |cursor.input| == 0 ==>
                r == Returned(None) && unchanged(this, cursor)
      ensures !old(end) && old(state) == StartState && |cursor.input| > 0 && cursor.input[0] != '#' ==>
                r == Panicked(cursor.input[0]) && unchanged(this, cursor)
      ensures !old(end) && (old(state) == CommentState || (|cursor.input| > 0 && cursor.input[0] == '#')) ==>
                state == CommentState &&
                var stop := CommentStop(cursor.input, 1);
                if stop == |cursor.input| then
                  r == Returned(Some(Token(cursor.input, Comment))) && end &&
                  cursor.position == |cursor.input| && cursor.offset == 0
                else
                  r == Panicked(cursor.input[stop]) && !end &&
                  cursor.position == 0 && cursor.offset == stop
    {
      if end {
        return Returned(None);
      }
      while true
        invariant Valid() && !end && !old(end)
        invariant state == StartState ==> old(state) == StartState && unchanged(this, cursor)
        decreases |cursor.input| - cursor.offset
      {
        if state == CommentState {
          CommentPrefixBound(cursor.input, cursor.offset);
        }
        var transition := Consume(state, cursor);
        match transition
        case Todo(c) =>
          if state == CommentState {
            CommentStopAt(cursor.input, cursor.offset);
          }
          return Panicked(c);
        case Transitioned(Transition(next, kind)) =>
          match kind
          case Advance =>
            state := next;
            cursor.Advance();
          case EmitToken(token, e) =>
            CommentStopAt(cursor.input, cursor.offset);
            assert cursor.input[cursor.position..cursor.offset] == cursor.input;
            state := next;
            cursor.Align();
            end := e;
            return Returned(Some(token));
          case End =>
            state := next;
            return Returned(None);
      }
    }
  }

  /** A fresh lexer asked for two items, as a caller pulling from the
      iterator would: empty input gives `None` twice, a whole-input comment
      gives itself as one token and then `None`, and otherwise the first call
      panics on the first character that neither starts nor continues a
      comment. */
  method FirstNext(input: string) returns (first: NextResult, second: NextResult)
    ensures |input| == 0 ==> first == Returned(None) && second == Returned(None)
    ensures first == Returned(Some(Token(input, Comment))) <==> IsComment(input)
    ensures first.Returned? ==> second == Returned(None)
    ensures |input| > 0 && input[0] != '#' ==> first == Panicked(input[0])
    ensures |input| > 0 && input[0] == '#' && CommentStop(input, 1) < |input| ==>
              first == Panicked(input[CommentStop(input, 1)])
  {
    var lexer := new Lexer(input);
    first := lexer.Next();
    second := lexer.Next();
    if IsComment(input) {
      CommentStopAt(input, |input|);
    }
  }
}
