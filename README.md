# prote comment lexer, in Dafny

This project models the lexer at the front of `prote`, a reader for CIF
(crystallographic information file) text. The lexer is a two-state machine
driven by a cursor over the input:

- `Cursor` holds the input, the start of the pending lexeme (`position`) and
  the index of the next character (`offset`).
- `StartState` accepts only `#`, which opens a comment.
- `CommentState` takes letters, digits, ASCII punctuation and whitespace.
  At end of input it emits everything read so far as a `Comment` token and
  ends the stream.
- `Lexer::next` asks the current state for a transition in a loop. It applies
  each transition to the cursor and returns a token, or `None`.

Files:

- `charclass.dfy` (module `CharClass`): the character predicates the
  comment state uses.
- `lexing.dfy` (module `Lexing`): the cursor, the transition functions and the
  lexer.

Design choices:

- The cursor and the lexer are classes whose methods update their fields.
- The states and transitions are datatypes.
- The `todo!()` arms become an explicit `Todo(c)` transition. `Lexer.Next`
  turns that into a `Panicked(c)` result.

What is proved:

- `Next` always terminates. Its decreasing measure is the number of unread
  characters.
- `offset` never passes the end of the input.
- On ASCII input, the only token ever emitted is the whole input, leading `#`
  included. After it, `end` is set and every later call returns `None`.

Facts about the code that shape the model:

- `peek` reads index `offset`, so `offset` is an absolute index and `align`
  resets it to 0. A second token would re-read the input from index 0, but
  `align` only runs for the final token, so this never happens.
- The comment lexeme keeps its leading `#`, because the start state advances
  past it.
- A newline does not end a comment. Whitespace, newline included, is taken by
  the first guard of `CommentState::consume`, so its `'\n'` arm never fires and
  a comment runs to the end of the input.
- An unexpected character panics in `todo!()`.

## Model

| member | source | states |
|---|---|---|
| `Lexing.Cursor.constructor` | src/main.rs:28-34 | a new cursor holds the input with `position` and `offset` both 0 |
| `Lexing.Cursor.Peek` | src/main.rs:36-38 | reads nothing but the cursor and changes nothing; gives `None` exactly when `offset` is at or past the character count, otherwise the character at index `offset` |
| `Lexing.Cursor.Lexeme` | src/main.rs:40-42 | when `position <= offset <= |input|` (otherwise the slice panics) the lexeme has length `offset - position` and the input is the part before `position`, then the lexeme, then the part from `offset` on |
| `Lexing.Cursor.Align` | src/main.rs:44-47 | `position` becomes the old `offset`, `offset` becomes 0, and the input is unchanged |
| `Lexing.Cursor.Advance` | src/main.rs:49-51 | `offset` grows by exactly one and `position` and the input are unchanged |
| `Lexing.ConsumeStart` | src/main.rs:161-177 | end of input gives `End` and stays in the start state; `#` gives `Advance` into the comment state; any other character is the `todo!()` panic on that character; each case holds in both directions |
| `Lexing.ConsumeComment` | src/main.rs:122-158 | end of input, and only end of input, emits a `Comment` token of lexeme `input[position..offset]` with `end = true`; otherwise it advances and stays in the comment state exactly when the character is alphanumeric, ASCII punctuation or whitespace, and panics in `todo!()` on that character when it is not; `'\n'` advances |
| `Lexing.Consume` | src/main.rs:69 | the call `self.state.consume(&self.cursor)` of the `State` trait (lines 100-102), dispatched on the state: `Advance` only when a character is left to read, an emission only at end of input and always with `end = true`, `End` only from and into the start state, a panic only on the character at `offset` |
| `Lexing.CommentStop` | src/main.rs:122-144 | the index where the comment scan from `k` stops: every character before it is one a comment may contain, and it is the end of input or a character a comment may not contain |
| `Lexing.Lexer.constructor` | src/main.rs:90-97 | a new lexer is in the start state with `end` false, over a new cursor at 0 and 0 |
| `Lexing.Lexer.Next` | src/main.rs:63-87 | keeps the lexer's invariant (offset within the input; before the token, the pending lexeme is `#` and comment characters from index 0; after it, the cursor is aligned at the end); with `end` set returns `None` and changes nothing; from the start state on empty input returns `None` and changes nothing; on a first character other than `#` panics on it and changes nothing; otherwise scans to `CommentStop` and either panics on the character there, or returns the whole input as one `Comment` token, aligns the cursor at the end and sets `end` |
| `Lexing.FirstNext` | src/main.rs:63-97 | for a fresh lexer on ASCII input (the model indexes characters where the source slices bytes): empty input gives `None` twice; the first call gives the whole input as one `Comment` token exactly when the input is `#` followed only by comment characters, and the second call then gives `None`; any other input panics on its first character that cannot start or continue a comment |

## Left out

- `main` (src/main.rs:3-8) reads a file and prints the first item. That is I/O
  and is not modelled.
- `Box<dyn State>` and trait-object dispatch are modelled as the closed
  datatype `State` and the dispatch function `Consume`.
- The unused `ErrorState` and `EndState` structs and the commented-out
  `EndState` impl have no behaviour and are not modelled.
- The `todo!()` panics are results (`Todo`, `Panicked`), not unwinding. After a
  `Panicked` result the lexer keeps the state and cursor it had when the
  panic happened.
- The unreachable `'\n'` arm of `CommentState::consume` is not written in
  `ConsumeComment`. Its guard can never hold, and `ConsumeComment` states that
  `'\n'` advances.
- ConsumeComment: classifies only the ASCII letters and digits as
  alphanumeric. Rust's `char::is_alphanumeric` also accepts non-ASCII letters
  and digits, and those would advance in the source but panic in the model.
  Unicode's alphabetic and numeric tables are not modelled. Whitespace is the
  full Unicode White_Space set, as in Rust.
- Lexeme: slices by character index. The source peeks by character
  (`chars().nth`) but slices by byte. The two agree on ASCII input, and the
  byte/char mismatch for multi-byte characters is not modelled.
- Cursor.Advance: `usize` overflow of `offset` is not modelled. Integers are
  unbounded here, and `Next` proves `offset` never exceeds the input length.
- FirstNext: the whole-input token it promises is the source's behaviour on
  ASCII input only. On input with multi-byte characters the source's byte
  slice ends early or panics, which this model does not capture.
