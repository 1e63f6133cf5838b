/**
 The passphrase prompt: `read_secret` of apps/tersa/src/prompt.rs, a byte-by-byte line
 editor, proved to edit whole characters.

 The terminal is the sequence of bytes it delivers followed by how reading ends.
 */
module Prompt {
  import opened Wrappers
  import opened Utf8

  const MAX_PASSPHRASE := 1024
  const CTRL_C := 0x03
  const CTRL_D := 0x04
  const BACKSPACE := 0x08
  const LINE_FEED := 0x0A
  const CARRIAGE_RETURN := 0x0D
  const DELETE := 0x7F

  /** What `read` answers once the delivered bytes are used up. */
  datatype Ending = EndOfFile | ReadError

  datatype Outcome = Secret(text: seq<Byte>) | Cancelled | TooLong | NotUtf8 | ReadFailed

  // ----- Byte editing: what the code does -----

  /** Pops bytes until one that starts a character has been popped. */
  function DropCharacter(buffer: seq<Byte>): seq<Byte> {
    if buffer == [] then []
    else if IsTail(buffer[|buffer| - 1]) then DropCharacter(buffer[..|buffer| - 1])
    else buffer[..|buffer| - 1]
  }

  function Finish(buffer: seq<Byte>): Outcome {
    if Decode(buffer).Some? then Secret(buffer) else NotUtf8
  }

  function ByteRun(typed: seq<Byte>, ending: Ending, buffer: seq<Byte>): Outcome {
    if typed == [] then (if ending == EndOfFile then Finish(buffer) else ReadFailed)
    else
      var b := typed[0];
      if b == CARRIAGE_RETURN || b == LINE_FEED then Finish(buffer)
      else if b == CTRL_C || (b == CTRL_D && buffer == []) then Cancelled
      else if b == BACKSPACE || b == DELETE then ByteRun(typed[1..], ending, DropCharacter(buffer))
      else if |buffer| >= MAX_PASSPHRASE then TooLong
      else ByteRun(typed[1..], ending, buffer + [b])
  }

  // ----- Character editing: what the user means -----

  /** The same line editor over whole characters and an unbounded stack of them. */
  function CharacterRun(typed: seq<Scalar>, ending: Ending, stack: seq<Scalar>): Outcome {
    if typed == [] then (if ending == EndOfFile then Secret(Encode(stack)) else ReadFailed)
    else
      var c := typed[0];
      if c == CARRIAGE_RETURN || c == LINE_FEED then Secret(Encode(stack))
      else if c == CTRL_C || (c == CTRL_D && stack == []) then Cancelled
      else if c == BACKSPACE || c == DELETE then
        CharacterRun(typed[1..], ending, if stack == [] then [] else stack[..|stack| - 1])
      else if |Encode(stack + [c])| > MAX_PASSPHRASE then TooLong
      else CharacterRun(typed[1..], ending, stack + [c])
  }

  // ----- The program -----

  /**
   `read_secret`.  The buffer is an array of the initial capacity: that every store is in
   bounds is the code's promise never to grow, and so never to copy, the buffer.
   */
  method ReadSecret(typed: seq<Byte>, ending: Ending) returns (outcome: Outcome)
    ensures outcome == ByteRun(typed, ending, [])
    ensures outcome.Secret? ==> |outcome.text| <= 1024 && Decode(outcome.text).Some?
    ensures forall text: seq<Scalar> :: Encode(text) == typed ==>
      outcome == CharacterRun(text, ending, []) && outcome != NotUtf8
  {
    forall text: seq<Scalar> | Encode(text) == typed
      ensures ByteRun(typed, ending, []) == CharacterRun(text, ending, []) != NotUtf8
    {
      EditingWholeCharacters(text, ending, []);
    }
    var bytes := new Byte[MAX_PASSPHRASE];
    var len := 0;
    var next := 0;
    while next < |typed|
      invariant 0 <= next <= |typed| && 0 <= len <= MAX_PASSPHRASE
      invariant ByteRun(typed, ending, []) == ByteRun(typed[next..], ending, bytes[..len])
    {
      var b := typed[next];
      next := next + 1;
      assert typed[next - 1..][1..] == typed[next..];
      if b == CARRIAGE_RETURN || b == LINE_FEED {
        return Finish(bytes[..len]);
      }
      if b == CTRL_C || (b == CTRL_D && len == 0) {
        return Cancelled;
      }
      if b == BACKSPACE || b == DELETE {
        ghost var before := bytes[..len];
        var popping := true;
        while popping && len > 0
          invariant 0 <= len <= MAX_PASSPHRASE
          invariant DropCharacter(before) == if popping then DropCharacter(bytes[..len]) else bytes[..len]
          decreases len
        {
          len := len - 1;
          assert bytes[..len + 1][..len] == bytes[..len];
          popping := IsTail(bytes[len]);
        }
      } else {
        if len >= MAX_PASSPHRASE {
          return TooLong;
        }
        ghost var before := bytes[..len];
        bytes[len] := b;
        len := len + 1;
        assert bytes[..len] == before + [b];
      }
    }
    if ending == ReadError {
      return ReadFailed;
    }
    return Finish(bytes[..len]);
  }

  // ----- Byte editing edits characters -----

  /** Non-control bytes are pushed one by one, or the buffer overflows on the way. */
  lemma {:induction false} PushBytes(bytes: seq<Byte>, rest: seq<Byte>, ending: Ending, buffer: seq<Byte>)
    requires |buffer| <= MAX_PASSPHRASE
    requires forall i :: 0 <= i < |bytes| ==> bytes[i] >= 0x80
    ensures ByteRun(bytes + rest, ending, buffer)
      == if |buffer + bytes| > MAX_PASSPHRASE then TooLong else ByteRun(rest, ending, buffer + bytes)
  {
    if bytes == [] {
      assert bytes + rest == rest && buffer + bytes == buffer;
    } else if |buffer| < MAX_PASSPHRASE {
      PushBytes(bytes[1..], rest, ending, buffer + [bytes[0]]);
      assert (bytes + rest)[1..] == bytes[1..] + rest;
      assert buffer + [bytes[0]] + bytes[1..] == buffer + bytes;
    }
  }

  /** Backspace over encoded text drops exactly the last character. */
  lemma DropCharacterOfText(stack: seq<Scalar>)
    ensures DropCharacter(Encode(stack)) == Encode(if stack == [] then [] else stack[..|stack| - 1])
  {
    if stack != [] {
      var init, last := stack[..|stack| - 1], stack[|stack| - 1];
      assert stack == init + [last];
      EncodeAppend(init, last);
      DropEncodedScalar(Encode(init), EncodeScalar(last));
    }
  }

  lemma {:induction false} DropEncodedScalar(front: seq<Byte>, bytes: seq<Byte>)
    requires |bytes| >= 1 && !IsTail(bytes[0])
    requires forall i :: 1 <= i < |bytes| ==> IsTail(bytes[i])
    ensures DropCharacter(front + bytes) == front
  {
    var all := front + bytes;
    if |bytes| == 1 {
      assert all[..|all| - 1] == front;
    } else {
      assert all[..|all| - 1] == front + bytes[..|bytes| - 1];
      DropEncodedScalar(front, bytes[..|bytes| - 1]);
    }
  }

  /** On complete, well-formed UTF-8 the byte editor and the character editor agree. */
  lemma {:induction false} EditingWholeCharacters(typed: seq<Scalar>, ending: Ending, stack: seq<Scalar>)
    requires |Encode(stack)| <= MAX_PASSPHRASE
    ensures ByteRun(Encode(typed), ending, Encode(stack)) == CharacterRun(typed, ending, stack)
    ensures CharacterRun(typed, ending, stack) != NotUtf8
  {
    DecodeEncode(stack);
    if typed != [] {
      var c := typed[0];
      EncodeAppend(stack, c);
      if c >= 0x80 {
        PushBytes(EncodeScalar(c), Encode(typed[1..]), ending, Encode(stack));
      } else {
        assert EncodeScalar(c) == [c] && Encode(typed) == [c] + Encode(typed[1..]);
        assert Encode(typed)[1..] == Encode(typed[1..]);
      }
      if c == CARRIAGE_RETURN || c == LINE_FEED || c == CTRL_C {
        return;
      }
      if c == BACKSPACE || c == DELETE {
        DropCharacterOfText(stack);
        var shorter := if stack == [] then [] else stack[..|stack| - 1];
        DropShortens(Encode(stack));
        EditingWholeCharacters(typed[1..], ending, shorter);
      } else if |Encode(stack + [c])| <= MAX_PASSPHRASE {
        EditingWholeCharacters(typed[1..], ending, stack + [c]);
      }
    }
  }

  lemma {:induction false} DropShortens(buffer: seq<Byte>)
    ensures |DropCharacter(buffer)| <= |buffer|
  {
    if buffer != [] && IsTail(buffer[|buffer| - 1]) {
      DropShortens(buffer[..|buffer| - 1]);
    }
  }

  // ----- What single keys do, stated without the editor -----

  /** A byte that is typed as itself wherever it stands. */
  predicate Plain(b: Byte) {
    b !in {0x03, 0x04, 0x08, 0x0A, 0x0D, 0x7F}
  }

  lemma {:induction false} PlainBytesAreKept(bytes: seq<Byte>, rest: seq<Byte>, ending: Ending, buffer: seq<Byte>)
    requires |buffer| <= 1024 && forall i :: 0 <= i < |bytes| ==> Plain(bytes[i])
    ensures ByteRun(bytes + rest, ending, buffer)
      == if |buffer + bytes| > 1024 then TooLong else ByteRun(rest, ending, buffer + bytes)
  {
    if bytes == [] {
      assert bytes + rest == rest && buffer + bytes == buffer;
    } else if |buffer| < 1024 {
      PlainBytesAreKept(bytes[1..], rest, ending, buffer + [bytes[0]]);
      assert (bytes + rest)[1..] == bytes[1..] + rest;
      assert buffer + [bytes[0]] + bytes[1..] == buffer + bytes;
    }
  }

  /** How a line of plain bytes ends: by either line key, by Ctrl-C, by Ctrl-D, or with its input. */
  lemma PlainLineEnds(bytes: seq<Byte>, rest: seq<Byte>)
    requires forall i :: 0 <= i < |bytes| ==> Plain(bytes[i])
    ensures var taken := if Decode(bytes).Some? then Secret(bytes) else NotUtf8;
      forall ending, key: Byte ::
        && (|bytes| > 1024 ==> ByteRun(bytes + ([key] + rest), ending, []) == TooLong)
        && (|bytes| <= 1024 && (key == 0x0D || key == 0x0A) ==> ByteRun(bytes + ([key] + rest), ending, []) == taken)
        && (|bytes| <= 1024 && key == 0x03 ==> ByteRun(bytes + ([key] + rest), ending, []) == Cancelled)
        && (bytes == [] && key == 0x04 ==> ByteRun(bytes + ([key] + rest), ending, []) == Cancelled)
    ensures |bytes| <= 1024 ==>
      ByteRun(bytes, EndOfFile, []) == (if Decode(bytes).Some? then Secret(bytes) else NotUtf8)
      && ByteRun(bytes, ReadError, []) == ReadFailed
  {
    assert [] + bytes == bytes && bytes + [] == bytes;
    PlainBytesAreKept(bytes, [], EndOfFile, []);
    PlainBytesAreKept(bytes, [], ReadError, []);
    forall ending, key: Byte
      ensures ByteRun(bytes + ([key] + rest), ending, [])
        == if |bytes| > 1024 then TooLong else ByteRun([key] + rest, ending, bytes)
    {
      PlainBytesAreKept(bytes, [key] + rest, ending, []);
    }
  }

  /** Either erasing key takes back the last character typed, and Ctrl-D in a line is typed as itself. */
  lemma ErasingKeys(text: seq<Scalar>, c: Scalar, rest: seq<Byte>, ending: Ending)
    requires |Encode(text + [c])| <= 1024
    ensures ByteRun([0x08] + rest, ending, Encode(text + [c])) == ByteRun(rest, ending, Encode(text))
    ensures ByteRun([0x7F] + rest, ending, Encode(text + [c])) == ByteRun(rest, ending, Encode(text))
    ensures |Encode(text + [c])| < 1024 ==>
      ByteRun([0x04] + rest, ending, Encode(text + [c])) == ByteRun(rest, ending, Encode(text + [c]) + [0x04])
  {
    DropCharacterOfText(text + [c]);
    EncodeAppend(text, c);
    assert (text + [c])[..|text|] == text;
    assert ([0x08] + rest)[1..] == rest && ([0x7F] + rest)[1..] == rest && ([0x04] + rest)[1..] == rest;
  }
}
