/**
 Terminal input decoded into keys: an index loop over a chunk, which keeps back an
 unfinished escape sequence (section 5.4 of ECMA-48), and the reader that feeds it.
 */
module Keys {

  import opened Wrappers

  /** A printable character by itself, or the name of a key. */
  type Key = string

  const ESCAPE := "escape"
  const ESC := '\U{1b}'

  /** Terminals interrupt, end input and suspend with these; they pass through unnamed. */
  predicate PassesThrough(c: char) {
    c == '\U{3}' || c == '\U{4}' || c == '\U{1a}'
  }

  /** What one character outside an escape sequence means; printable is the character database's answer. */
  function DecodePlain(c: char, printable: char -> bool): Option<Key> {
    if c == '\r' || c == '\n' then Some("enter")
    else if c == '\t' then Some("tab")
    else if c == ESC then Some(ESCAPE)
    else if c == '\U{8}' || c == '\U{7f}' then Some("backspace")
    else if printable(c) then Some([c])
    else None
  }

  function Named(c: char, printable: char -> bool): Option<Key> {
    if PassesThrough(c) then Some([c]) else DecodePlain(c, printable)
  }

  /** The parameter and intermediate bytes of a control sequence. */
  predicate IsParameter(c: char) {
    ' ' <= c <= '?'
  }

  function BeforeSemicolon(params: string): string {
    if params == "" || params[0] == ';' then "" else [params[0]] + BeforeSemicolon(params[1..])
  }

  function TildeName(number: string): Option<Key> {
    if number == "1" || number == "7" then Some("home")
    else if number == "4" || number == "8" then Some("end")
    else if number == "3" then Some("delete")
    else if number == "5" then Some("pgup")
    else if number == "6" then Some("pgdn")
    else None
  }

  function FinalName(last: char): Option<Key> {
    if last == 'A' then Some("up")
    else if last == 'B' then Some("down")
    else if last == 'C' then Some("right")
    else if last == 'D' then Some("left")
    else if last == 'H' then Some("home")
    else if last == 'F' then Some("end")
    else if last == 'Z' then Some("backtab")
    else None
  }

  /** The key of a whole control sequence, if it is a known one. */
  function SequenceName(params: string, last: char): Option<Key> {
    if !('@' <= last <= '~') then None
    else if last == '~' then TildeName(BeforeSemicolon(params))
    else FinalName(last)
  }

  /** The first position from `from` on that holds no parameter byte. */
  function ParametersEnd(data: string, from: nat): (end: nat)
    requires from <= |data|
    ensures from <= end <= |data| && forall i | from <= i < end :: IsParameter(data[i])
    ensures end < |data| ==> !IsParameter(data[end])
    decreases |data| - from
  {
    if from < |data| && IsParameter(data[from]) then ParametersEnd(data, from + 1) else from
  }

  // ----- What a chunk means -----

  /** The first thing in some data: it takes size characters and may name a key, or has to wait for more. */
  datatype Step = Takes(key: Option<Key>, size: nat) | Waits

  function First(data: string, final: bool, printable: char -> bool): (step: Step)
    requires data != ""
    ensures step.Takes? ==> 0 < step.size <= |data|
    ensures step.Waits? ==> !final
  {
    if data[0] != ESC then Takes(Named(data[0], printable), 1)
    else if |data| == 1 then if final then Takes(Some(ESCAPE), 1) else Waits
    else if data[1] != '[' && data[1] != 'O' then Takes(Some(ESCAPE), 1)
    else
      var end := ParametersEnd(data, 2);
      if end < |data| then Takes(SequenceName(data[2..end], data[end]), end + 1)
      else if final then Takes(None, |data|)
      else Waits
  }

  function Keyed(key: Option<Key>): seq<Key> {
    if key.Some? then [key.value] else []
  }

  /** The keys found in some data. */
  function Found(data: string, final: bool, printable: char -> bool): seq<Key>
    decreases |data|
  {
    if data == "" then []
    else
      match First(data, final, printable)
      case Waits => []
      case Takes(key, size) => Keyed(key) + Found(data[size..], final, printable)
  }

  /** What is kept back for the next chunk. */
  function Kept(data: string, final: bool, printable: char -> bool): string
    decreases |data|
  {
    if data == "" then ""
    else
      match First(data, final, printable)
      case Waits => data
      case Takes(_, size) => Kept(data[size..], final, printable)
  }

  method DecodeAnsi(data: string, final: bool, printable: char -> bool) returns (keys: seq<Key>, remainder: string)
    ensures keys == Found(data, final, printable) && remainder == Kept(data, final, printable)
  {
    hide First, Found, Kept, SequenceName, Named, ParametersEnd;
    keys := [];
    var index := 0;
    assert data[0..] == data;
    Ended(data, final, printable);
    while index < |data|
      invariant index <= |data|
      invariant Found(data, final, printable) == keys + Found(data[index..], final, printable)
      invariant Kept(data, final, printable) == Kept(data[index..], final, printable)
      decreases |data| - index
    {
      var character := data[index];
      Unfold(data, index, final, printable);
      FirstAt(data, index, final, printable);
      if character != ESC {
        keys := keys + Keyed(Named(character, printable));
        index := index + 1;
        continue;
      }
      if index + 1 == |data| {
        if !final {
          return keys, data[index..];
        }
        keys := keys + [ESCAPE];
        index := index + 1;
        break;
      }
      if data[index + 1] != '[' && data[index + 1] != 'O' {
        keys := keys + [ESCAPE];
        index := index + 1;
        continue;
      }
      var end := ReadParameters(data, index + 2);
      if end >= |data| {
        return keys, if final then "" else data[index..];
      }
      keys := keys + Keyed(SequenceName(data[index + 2..end], data[end]));
      index := end + 1;
    }
    remainder := "";
  }

  method ReadParameters(data: string, from: nat) returns (end: nat)
    requires from <= |data|
    ensures end == ParametersEnd(data, from)
  {
    end := from;
    while end < |data| && IsParameter(data[end])
      invariant from <= end <= |data|
      invariant ParametersEnd(data, from) == ParametersEnd(data, end)
    {
      end := end + 1;
    }
  }

  /** The first step at a position, told from the position. */
  lemma FirstAt(data: string, index: nat, final: bool, printable: char -> bool)
    requires index < |data|
    ensures First(data[index..], final, printable)
      == if data[index] != ESC then Takes(Named(data[index], printable), 1)
         else if index + 1 == |data| then if final then Takes(Some(ESCAPE), 1) else Waits
         else if data[index + 1] != '[' && data[index + 1] != 'O' then Takes(Some(ESCAPE), 1)
         else
           var end := ParametersEnd(data, index + 2);
           if end < |data| then Takes(SequenceName(data[index + 2..end], data[end]), end + 1 - index)
           else if final then Takes(None, |data| - index)
           else Waits
  {
    hide SequenceName, Named, IsParameter;
    if index + 1 < |data| {
      ParametersShift(data, index, 2);
      var end := ParametersEnd(data, index + 2);
      assert data[index..][2..end - index] == data[index + 2..end];
    }
  }

  lemma Ended(data: string, final: bool, printable: char -> bool)
    ensures Found(data[|data|..], final, printable) == [] && Kept(data[|data|..], final, printable) == ""
  {
  }

  lemma Unfold(data: string, index: nat, final: bool, printable: char -> bool)
    requires index < |data|
    ensures var rest := data[index..];
      var step := First(rest, final, printable);
      if step.Waits? then Found(rest, final, printable) == [] && Kept(rest, final, printable) == rest
      else
        && Found(rest, final, printable) == Keyed(step.key) + Found(data[index + step.size..], final, printable)
        && Kept(rest, final, printable) == Kept(data[index + step.size..], final, printable)
  {
    var rest := data[index..];
    var step := First(rest, final, printable);
    if step.Takes? {
      assert rest[step.size..] == data[index + step.size..];
    }
  }

  lemma {:induction false} ParametersShift(data: string, index: nat, from: nat)
    requires index <= |data| && from <= |data| - index
    ensures ParametersEnd(data[index..], from) == ParametersEnd(data, index + from) - index
    decreases |data| - index - from
  {
    if index + from < |data| && IsParameter(data[index + from]) {
      ParametersShift(data, index, from + 1);
    }
  }

  // ----- Chunks -----

  lemma {:induction false} ParametersExtend(a: string, b: string, from: nat)
    requires from <= |a| && ParametersEnd(a, from) < |a|
    ensures ParametersEnd(a + b, from) == ParametersEnd(a, from)
    decreases |a| - from
  {
    if from < |a| && IsParameter(a[from]) {
      ParametersExtend(a, b, from + 1);
    }
  }

  /** What can be decided from the start of the data is not changed by more data. */
  lemma FirstStable(a: string, b: string, final: bool, printable: char -> bool)
    requires a != "" && First(a, false, printable).Takes?
    ensures First(a + b, final, printable) == First(a, false, printable)
  {
    if a[0] == ESC && |a| > 1 && (a[1] == '[' || a[1] == 'O') {
      ParametersExtend(a, b, 2);
      var end := ParametersEnd(a, 2);
      assert (a + b)[2..end] == a[2..end];
    }
  }

  /** Decoding does not depend on where the input is cut: what the first chunk keeps back goes before the next. */
  lemma {:induction false} ChunksCompose(a: string, b: string, final: bool, printable: char -> bool)
    ensures var rest := Kept(a, false, printable);
      && Found(a + b, final, printable) == Found(a, false, printable) + Found(rest + b, final, printable)
      && Kept(a + b, final, printable) == Kept(rest + b, final, printable)
    decreases |a|
  {
    hide First, Found, Kept;
    if a == "" {
      assert a + b == b;
      Ended(a, false, printable);
    } else {
      var step := First(a, false, printable);
      assert a[0..] == a && (a + b)[0..] == a + b;
      Unfold(a, 0, false, printable);
      if step.Takes? {
        FirstStable(a, b, final, printable);
        Unfold(a + b, 0, final, printable);
        ChunksCompose(a[step.size..], b, final, printable);
        assert (a + b)[step.size..] == a[step.size..] + b;
      }
    }
  }

  /** What is kept back is decoded no further by itself. */
  lemma {:induction false} RemainderWaits(a: string, printable: char -> bool)
    ensures var rest := Kept(a, false, printable);
      Found(rest, false, printable) == [] && Kept(rest, false, printable) == rest
    decreases |a|
  {
    if a != "" {
      match First(a, false, printable)
      case Waits =>
      case Takes(_, size) => RemainderWaits(a[size..], printable);
    }
  }

  /** With the final flag nothing is kept back. */
  lemma {:induction false} FinalLeavesNothing(a: string, printable: char -> bool)
    ensures Kept(a, true, printable) == ""
    decreases |a|
  {
    if a != "" {
      FinalLeavesNothing(a[First(a, true, printable).size..], printable);
    }
  }

  /** A control sequence is at most one key, and what follows it is decoded as if it stood alone. */
  lemma SequenceIsOneKey(intro: char, params: string, last: char, rest: string, final: bool, printable: char -> bool)
    requires (intro == '[' || intro == 'O') && !IsParameter(last) && forall c | c in params :: IsParameter(c)
    ensures var data := [ESC, intro] + params + [last] + rest;
      && Found(data, final, printable) == Keyed(SequenceName(params, last)) + Found(rest, final, printable)
      && Kept(data, final, printable) == Kept(rest, final, printable)
  {
    var data := [ESC, intro] + params + [last] + rest;
    var end := 2 + |params|;
    assert forall i | 2 <= i < end :: data[i] == params[i - 2];
    ParametersReach(data, 2, end);
    assert data[2..end] == params;
    assert data[end + 1..] == rest;
    hide SequenceName;
  }

  // ----- Sequences that are broken off -----

  predicate Introduces(c: char) {
    c == '[' || c == 'O'
  }

  /** The character database knows the graphic characters of ASCII as printable. */
  ghost predicate PrintsAscii(printable: char -> bool) {
    forall c | ' ' <= c <= '~' :: printable(c)
  }

  /** A run of characters typed one by one. */
  function Typed(text: string): (keys: seq<Key>)
    ensures |keys| == |text| && forall i | 0 <= i < |text| :: keys[i] == [text[i]]
  {
    seq(|text|, i requires 0 <= i < |text| => [text[i]])
  }

  /** The introducer and parameters at the start of some data. */
  function Opening(data: string): string {
    if data != "" && Introduces(data[0]) then data[..ParametersEnd(data, 1)] else ""
  }

  /** What stands behind the opening's first character that is no parameter. */
  function Behind(data: string): string {
    if |Opening(data)| < |data| then data[|Opening(data)| + 1..] else ""
  }

  /**
   Whether a swallowed escape goes unnoticed before some data: at its end, while more
   may come; or before two openings alike, the first broken off by an escape, the
   second at its end, before a character without a key, or by an escape that in
   turn goes unnoticed.
   */
  predicate Unnoticed(rest: string, final: bool, printable: char -> bool)
    decreases |rest|
  {
    if rest == "" then !final
    else
      var first, second := Opening(rest), Behind(rest);
      && first != "" && |first| < |rest| && rest[|first|] == ESC
      && Opening(second) == first
      && (|first| == |second|
          || (if second[|first|] == ESC then Unnoticed(Behind(second), final, printable)
              else Named(second[|first|], printable).None?))
  }

  /** Data that opens like a sequence: what it is with and without an escape before it. */
  lemma OpeningTyped(data: string, final: bool, printable: char -> bool)
    requires PrintsAscii(printable) && Opening(data) != ""
    ensures var opening := Opening(data);
      && Introduces(opening[0]) && (forall i | 0 < i < |opening| :: IsParameter(opening[i]))
      && data[..|opening|] == opening
      && Found(data, final, printable) == Typed(opening) + Found(data[|opening|..], final, printable)
      && (|opening| == |data| ==> Found([ESC] + data, final, printable) == [])
      && (|opening| < |data| ==>
            && !IsParameter(data[|opening|])
            && Found([ESC] + data, final, printable)
               == Keyed(SequenceName(opening[1..], data[|opening|])) + Found(Behind(data), final, printable))
  {
    var opening := Opening(data);
    OpeningShape(data);
    hide Found, Opening, Behind, Typed, SequenceName, IsParameter, PrintsAscii;
    PlainTyped(opening, data, final, printable);
    if |opening| < |data| {
      OpeningSwallowed(data, final, printable);
    } else {
      Unfinished(data, final, printable);
    }
  }

  lemma OpeningSwallowed(data: string, final: bool, printable: char -> bool)
    requires Opening(data) != "" && |Opening(data)| < |data|
    ensures Found([ESC] + data, final, printable)
      == Keyed(SequenceName(Opening(data)[1..], data[|Opening(data)|])) + Found(Behind(data), final, printable)
  {
    OpeningShape(data);
    BehindIs(data);
    hide Found, Opening, Behind, SequenceName, IsParameter;
    var opening, last := Opening(data), data[|Opening(data)|];
    assert data == opening + [last] + Behind(data);
    assert [ESC] + data == [ESC, opening[0]] + opening[1..] + [last] + Behind(data);
    SequenceIsOneKey(opening[0], opening[1..], last, Behind(data), final, printable);
  }

  lemma OpeningShape(data: string)
    requires Opening(data) != ""
    ensures var opening := Opening(data);
      && |opening| <= |data| && data[..|opening|] == opening
      && Introduces(opening[0]) && (forall i | 0 < i < |opening| :: IsParameter(opening[i]))
      && (|opening| < |data| ==> !IsParameter(data[|opening|]))
      && (forall c | c in opening :: ' ' <= c <= '~')
  {
  }

  lemma BehindIs(data: string)
    requires |Opening(data)| < |data|
    ensures Behind(data) == data[|Opening(data)| + 1..] && data[..|Opening(data)|] == Opening(data)
  {
  }

  /** A sequence that ends with the data is no key: it waits, or is given up. */
  lemma Unfinished(data: string, final: bool, printable: char -> bool)
    requires data != "" && Introduces(data[0]) && forall i | 0 < i < |data| :: IsParameter(data[i])
    ensures Found([ESC] + data, final, printable) == []
  {
    var whole := [ESC] + data;
    assert forall i | 1 < i < |whole| :: whole[i] == data[i - 1];
    ParametersRunOut(whole, 2);
    if final {
      assert whole[|whole|..] == "";
      assert Found("", final, printable) == [];
    }
  }

  lemma {:induction false} ParametersRunOut(data: string, from: nat)
    requires from <= |data| && forall i | from <= i < |data| :: IsParameter(data[i])
    ensures ParametersEnd(data, from) == |data|
    decreases |data| - from
  {
    if from < |data| {
      ParametersRunOut(data, from + 1);
    }
  }

  lemma PlainTyped(text: string, data: string, final: bool, printable: char -> bool)
    requires PrintsAscii(printable) && text <= data && forall c | c in text :: ' ' <= c <= '~'
    ensures Found(data, final, printable) == Typed(text) + Found(data[|text|..], final, printable)
  {
    assert data == text + data[|text|..];
    TypedThen(text, data[|text|..], final, printable);
  }

  lemma {:induction false} TypedThen(text: string, rest: string, final: bool, printable: char -> bool)
    requires PrintsAscii(printable) && forall c | c in text :: ' ' <= c <= '~'
    ensures Found(text + rest, final, printable) == Typed(text) + Found(rest, final, printable)
    decreases |text|
  {
    hide Found, Typed, PrintsAscii;
    if text == "" {
      TypedNone();
      assert text + rest == rest;
    } else {
      assert text[0] in text;
      assert forall c | c in text[1..] :: c in text;
      TypedThen(text[1..], rest, final, printable);
      FoundTyped(text[0], text[1..] + rest, final, printable);
      assert text + rest == [text[0]] + (text[1..] + rest);
      TypedFirst(text);
    }
  }

  lemma TypedNone()
    ensures Typed("") == []
  {
  }

  lemma FoundTyped(c: char, rest: string, final: bool, printable: char -> bool)
    requires PrintsAscii(printable) && ' ' <= c <= '~'
    ensures Found([c] + rest, final, printable) == [[c]] + Found(rest, final, printable)
  {
    FoundPlain([c] + rest, final, printable);
    assert ([c] + rest)[1..] == rest;
  }

  lemma TypedFirst(text: string)
    requires text != ""
    ensures Typed(text) == [[text[0]]] + Typed(text[1..])
  {
  }

  /** A character that ends no sequence and is no escape, decoded on its own. */
  lemma FoundPlain(data: string, final: bool, printable: char -> bool)
    requires data != "" && data[0] != ESC
    ensures Found(data, final, printable) == Keyed(Named(data[0], printable)) + Found(data[1..], final, printable)
  {
  }

  lemma FoundEscape(data: string, final: bool, printable: char -> bool)
    requires Opening(data) == ""
    ensures Found([ESC] + data, final, printable)
         == if data != "" then [ESCAPE] + Found(data, final, printable) else if final then [ESCAPE] else []
  {
    if data != "" {
      assert !Introduces(data[0]);
      assert ([ESC] + data)[1..] == data;
    } else {
      assert ([ESC] + data)[1..] == "";
      assert Found("", final, printable) == [];
    }
  }

  /** What the data is with and without an escape before it, once its opening is broken off by an escape. */
  lemma OpeningBroken(data: string, final: bool, printable: char -> bool)
    requires PrintsAscii(printable) && Opening(data) != "" && |Opening(data)| < |data| && data[|Opening(data)|] == ESC
    ensures Found([ESC] + data, final, printable) == Found(Behind(data), final, printable)
    ensures Found(data, final, printable) == Typed(Opening(data)) + Found([ESC] + Behind(data), final, printable)
  {
    OpeningTyped(data, final, printable);
    BehindIs(data);
    hide Found, Opening, Behind, Typed, SequenceName, PrintsAscii, IsParameter;
    HeadOf(data, |Opening(data)|);
  }

  lemma HeadOf(data: string, i: nat)
    requires i < |data|
    ensures data[i..] == [data[i]] + data[i + 1..]
  {
  }

  /** What the data is with and without an escape before it, once its opening is followed by another character. */
  lemma OpeningFollowed(data: string, final: bool, printable: char -> bool)
    requires PrintsAscii(printable) && Opening(data) != "" && |Opening(data)| < |data| && data[|Opening(data)|] != ESC
    ensures var opening, last, after := Opening(data), data[|Opening(data)|], Found(Behind(data), final, printable);
      && Found([ESC] + data, final, printable) == Keyed(SequenceName(opening[1..], last)) + after
      && Found(data, final, printable) == Typed(opening) + (Keyed(Named(last, printable)) + after)
  {
    OpeningTyped(data, final, printable);
    BehindIs(data);
    FoundPlain(data[|Opening(data)|..], final, printable);
    hide Found, Opening, Behind, Typed, SequenceName, Named;
    assert data[|Opening(data)|..][1..] == Behind(data);
  }

  lemma TypedCancels(a: string, b: string, x: seq<Key>, y: seq<Key>)
    requires Typed(a) + x == Typed(b) + y && |a| <= |b|
    ensures b[..|a|] == a && x == Typed(b[|a|..]) + y
  {
    assert forall i | 0 <= i < |a| :: (Typed(a) + x)[i] == [a[i]] && (Typed(b) + y)[i] == [b[i]];
    assert x == (Typed(a) + x)[|a|..];
    assert Typed(b[|a|..]) + y == (Typed(b) + y)[|a|..];
  }

  /** Keys cannot be made up for by parameters typed before them. */
  lemma NoShift(data: string, p: string, final: bool, printable: char -> bool)
    requires PrintsAscii(printable) && p != "" && forall c | c in p :: IsParameter(c)
    ensures Found([ESC] + data, final, printable) != Typed(p) + Found(data, final, printable)
    ensures Found(data, final, printable) != Typed(p) + Found([ESC] + data, final, printable)
  {
    assert p[0] in p;
    hide Found, SequenceName, Behind, Opening;
    if Opening(data) == "" {
      FoundEscape(data, final, printable);
      assert Found("", final, printable) == [] by { Nothing(final, printable); }
    } else {
      StartsTyped(data, final, printable);
      OpeningTyped(data, final, printable);
      if |Opening(data)| < |data| && data[|Opening(data)|] == ESC {
        OpeningBroken(data, final, printable);
        var rest := Behind(data);
        if Opening(rest) == "" {
          FoundEscape(rest, final, printable);
          Nothing(final, printable);
        } else {
          StartsTyped(rest, final, printable);
        }
      } else if |Opening(data)| < |data| {
        OpeningFollowed(data, final, printable);
      }
    }
  }

  lemma Nothing(final: bool, printable: char -> bool)
    ensures Found("", final, printable) == []
  {
  }

  lemma StartsTyped(data: string, final: bool, printable: char -> bool)
    requires PrintsAscii(printable) && Opening(data) != ""
    ensures var keys := Found(data, final, printable);
      keys != [] && |keys[0]| == 1 && Introduces(keys[0][0])
  {
    OpeningTyped(data, final, printable);
    hide Found, Opening, SequenceName;
  }

  /** Named characters after one opening, keys of sequences after another: alike only without either. */
  lemma LastTells(a: string, b: string, last: char, printable: char -> bool)
    requires PrintsAscii(printable) && a != "" && b != "" && !IsParameter(last) && last != ESC
    requires forall i | 0 < i < |b| :: IsParameter(b[i])
    ensures Typed(a) + Keyed(Named(last, printable)) == Typed(b) + Keyed(SequenceName(a[1..], last))
      <==> a == b && Named(last, printable).None?
  {
    SequenceKeys(a[1..], last, printable);
    if Named(last, printable).None? {
      hide SequenceName, Named;
      assert Typed(a) + [] == Typed(a) && Typed(b) + [] == Typed(b);
      if Typed(a) == Typed(b) {
        TypedCancels(a, b, [], []);
      }
    } else {
      NamedTells(a, b, last, printable);
    }
  }

  lemma NamedTells(a: string, b: string, last: char, printable: char -> bool)
    requires PrintsAscii(printable) && a != "" && b != "" && !IsParameter(last) && last != ESC
    requires Named(last, printable).Some? && forall i | 0 < i < |b| :: IsParameter(b[i])
    ensures Typed(a) + Keyed(Named(last, printable)) != Typed(b) + Keyed(SequenceName(a[1..], last))
  {
    var named, key := Named(last, printable), SequenceName(a[1..], last);
    var x, y := Typed(a) + Keyed(named), Typed(b) + Keyed(key);
    SequenceKeys(a[1..], last, printable);
    hide SequenceName, Named;
    if key.Some? && |a| == |b| {
      assert x[|a|] == named.value && y[|a|] == key.value;
    }
    if key.None? && |b| == |a| + 1 {
      assert x[|a|] == named.value && y[|a|] == [b[|a|]];
    }
  }

  /** The key of a sequence has a longer name than the character that ends it; without a name there is no key. */
  lemma SequenceKeys(params: string, last: char, printable: char -> bool)
    requires PrintsAscii(printable) && !IsParameter(last) && last != ESC
    ensures Named(last, printable).None? ==> SequenceName(params, last).None?
    ensures SequenceName(params, last).Some? ==>
      |SequenceName(params, last).value| > 1 && Named(last, printable) == Some([last])
    ensures Named(last, printable).Some? && |Named(last, printable).value| == 1 ==>
      Named(last, printable).value == [last]
  {
  }

  /** Swallowing an escape changes nothing exactly where it goes unnoticed. */
  lemma {:induction false} EscapeUnnoticed(rest: string, final: bool, printable: char -> bool)
    requires PrintsAscii(printable)
    ensures Found([ESC] + rest, final, printable) == Found(rest, final, printable) <==> Unnoticed(rest, final, printable)
    decreases |rest|
  {
    hide Found, SequenceName, Named;
    Nothing(final, printable);
    var first, second := Opening(rest), Behind(rest);
    if first == "" {
      FoundEscape(rest, final, printable);
    } else {
      OpeningTyped(rest, final, printable);
      if |first| < |rest| && rest[|first|] == ESC {
        OpeningBroken(rest, final, printable);
        SecondOpening(first, second, final, printable);
        var third := Behind(second);
        if Opening(second) == first && |first| < |second| && second[|first|] == ESC {
          EscapeUnnoticed(third, final, printable);
        }
      } else if |first| < |rest| {
        OpeningFollowed(rest, final, printable);
        SequenceKeys(first[1..], rest[|first|], printable);
      }
    }
  }

  /** After a broken opening: the second opening, typed or swallowed, tells whether an escape was missed. */
  lemma SecondOpening(first: string, second: string, final: bool, printable: char -> bool)
    requires PrintsAscii(printable) && first != "" && forall i | 0 < i < |first| :: IsParameter(first[i])
    ensures Found(second, final, printable) == Typed(first) + Found([ESC] + second, final, printable)
      <==>
        && Opening(second) == first
        && (|first| == |second|
            || (if second[|first|] == ESC
                then Found([ESC] + Behind(second), final, printable) == Found(Behind(second), final, printable)
                else Named(second[|first|], printable).None?))
  {
    hide Found, SequenceName, Named, Behind;
    var s := Opening(second);
    Nothing(final, printable);
    if s == "" {
      FoundEscape(second, final, printable);
    } else {
      OpeningTyped(second, final, printable);
      OpeningShape(second);
      hide Opening;
      if |s| == |second| {
        assert second[|s|..] == "";
        assert Typed(first) + [] == Typed(first) && Typed(s) + [] == Typed(s);
        if Typed(s) == Typed(first) {
          if |s| <= |first| { TypedCancels(s, first, [], []); } else { TypedCancels(first, s, [], []); }
        }
      } else if second[|s|] == ESC {
        OpeningBroken(second, final, printable);
        BrokenTwice(first, s, Behind(second), final, printable);
      } else {
        OpeningFollowed(second, final, printable);
        FollowedOnce(first, s, second[|s|], Found(Behind(second), final, printable), printable);
      }
    }
  }

  lemma BrokenTwice(first: string, s: string, third: string, final: bool, printable: char -> bool)
    requires PrintsAscii(printable) && first != "" && s != ""
    requires (forall i | 0 < i < |first| :: IsParameter(first[i])) && (forall i | 0 < i < |s| :: IsParameter(s[i]))
    ensures Typed(s) + Found([ESC] + third, final, printable) == Typed(first) + Found(third, final, printable)
      <==> s == first && Found([ESC] + third, final, printable) == Found(third, final, printable)
  {
    hide Found;
    var x, y := Found([ESC] + third, final, printable), Found(third, final, printable);
    if Typed(s) + x == Typed(first) + y {
      if |s| < |first| {
        TypedCancels(s, first, x, y);
        NoShift(third, first[|s|..], final, printable);
      } else {
        TypedCancels(first, s, y, x);
        if |first| < |s| {
          NoShift(third, s[|first|..], final, printable);
        } else {
          assert s[|first|..] == "" && Typed("") + x == x;
        }
      }
    }
  }

  lemma FollowedOnce(first: string, s: string, last: char, after: seq<Key>, printable: char -> bool)
    requires PrintsAscii(printable) && first != "" && s != "" && !IsParameter(last) && last != ESC
    requires forall i | 0 < i < |first| :: IsParameter(first[i])
    ensures Typed(s) + (Keyed(Named(last, printable)) + after) == Typed(first) + (Keyed(SequenceName(s[1..], last)) + after)
      <==> s == first && Named(last, printable).None?
  {
    LastTells(s, first, last, printable);
    hide Named, SequenceName, Typed, Keyed;
    var a, b := Typed(s) + Keyed(Named(last, printable)), Typed(first) + Keyed(SequenceName(s[1..], last));
    assert Typed(s) + (Keyed(Named(last, printable)) + after) == a + after;
    assert Typed(first) + (Keyed(SequenceName(s[1..], last)) + after) == b + after;
    AppendCancels(a, b, after);
  }

  lemma AppendCancels(a: seq<Key>, b: seq<Key>, c: seq<Key>)
    ensures a + c == b + c <==> a == b
  {
    if a + c == b + c {
      assert |a| == |b|;
      assert a == (a + c)[..|a|] && b == (b + c)[..|b|];
    }
  }

  /** What was typed with a sequence in it, had a broken-off sequence cost nothing but itself. */
  function Due(params: string, last: char, rest: string, final: bool, printable: char -> bool): seq<Key> {
    if '@' <= last <= '~' then Keyed(SequenceName(params, last)) + Found(rest, final, printable)
    else Found([last] + rest, final, printable)
  }

  /**
   A sequence takes the first character that is no parameter for its end. Exactly
   when is nothing lost by that: when the character may end a sequence, when it is
   no key, or when it is an escape that goes unnoticed.
   */
  lemma BrokenSequence(intro: char, params: string, last: char, rest: string, final: bool, printable: char -> bool)
    requires Introduces(intro) && !IsParameter(last) && (forall c | c in params :: IsParameter(c)) && PrintsAscii(printable)
    ensures var data := [ESC, intro] + params + [last] + rest;
      Found(data, final, printable) == Due(params, last, rest, final, printable) <==>
        || '@' <= last <= '~'
        || (if last == ESC then Unnoticed(rest, final, printable) else Named(last, printable).None?)
    ensures !('@' <= last <= '~') ==>
      Found([ESC, intro] + params + [last] + rest, final, printable) == Found(rest, final, printable)
  {
    SequenceIsOneKey(intro, params, last, rest, final, printable);
    if last == ESC {
      EscapeUnnoticed(rest, final, printable);
    } else if !('@' <= last <= '~') {
      FoundPlain([last] + rest, final, printable);
      assert ([last] + rest)[1..] == rest;
    }
  }

  /** An arrow key right after a broken-off sequence: its tail surfaces as characters, and no Up is seen. */
  lemma BrokenSequenceLeaks(printable: char -> bool)
    requires PrintsAscii(printable)
    ensures Found([ESC, '['] + "" + [ESC] + "[A", true, printable) == ["[", "A"]
    ensures Due("", ESC, "[A", true, printable) == ["up"]
  {
    SequenceIsOneKey('[', "", ESC, "[A", true, printable);
    PlainTyped("[A", "[A", true, printable);
    Nothing(true, printable);
    assert "[A"[2..] == "";
    assert [ESC] + "[A" == [ESC, '['] + "" + ['A'] + "";
    SequenceIsOneKey('[', "", 'A', "", true, printable);
  }

  lemma {:induction false} ParametersReach(data: string, from: nat, end: nat)
    requires from <= end < |data| && !IsParameter(data[end]) && forall i | from <= i < end :: IsParameter(data[i])
    ensures ParametersEnd(data, from) == end
    decreases end - from
  {
    if from < end {
      ParametersReach(data, from + 1, end);
    }
  }

  lemma LoneEscape(printable: char -> bool)
    ensures Found([ESC], true, printable) == [ESCAPE] && Kept([ESC], true, printable) == ""
    ensures Found("", false, printable) == [] && Kept("", false, printable) == ""
  {
    assert [ESC][1..] == "";
  }

  // ----- The reader -----

  const ESCAPE_DELAY := 0.05

  /** What a poll of the terminal brings: nothing, end of file, or bytes that decode to some text. */
  datatype Poll = Nothing | EndOfFile | Bytes(text: string)

  function TextOf(poll: Poll): string {
    if poll.Bytes? then poll.text else ""
  }

  /** Buffers keys and an unfinished sequence between polls. */
  class KeyReader {
    const printable: char -> bool
    var pending: seq<Key>
    var ansi: string
    var ansiSince: real
    var eof: bool
    /** Text read since a lone Escape last expired, and the keys found before that. */
    ghost var input: string
    ghost var flushed: seq<Key>
    /** Keys handed out so far. */
    ghost var returned: seq<Key>

    ghost predicate Valid()
      reads this
    {
      && ansi == Kept(input, false, printable)
      && returned + pending == flushed + Found(input, false, printable)
    }

    constructor (printable: char -> bool)
      ensures Valid() && input == "" && flushed == [] && returned == []
    {
      this.printable := printable;
      pending, ansi, ansiSince, eof := [], "", 0.0, false;
      input, flushed, returned := "", [], [];
    }

    /** A lone Escape has waited long enough, and nothing follows it. */
    predicate Expired(poll: Poll, now: real)
      reads `ansi, `ansiSince
    {
      ansi == [ESC] && now - ansiSince >= ESCAPE_DELAY && !poll.Bytes?
    }

    /** One poll: a lone Escape is a key only once it has waited and nothing followed it. */
    method ReadPosix(poll: Poll, now: real) returns (decoded: seq<Key>)
      requires Valid()
      modifies `ansi, `ansiSince, `eof, `input, `flushed
      ensures ansi == Kept(input, false, printable) && eof == (old(eof) || poll.EndOfFile?)
      ensures ansiSince == if ansi != "" && (old(ansi) == "" || ansi != old(ansi) + TextOf(poll)) then now else old(ansiSince)
      ensures returned + pending + decoded == flushed + Found(input, false, printable)
      ensures if old(Expired(poll, now)) then
          decoded == [ESCAPE] && input == "" && flushed == old(returned + pending) + [ESCAPE]
        else
          input == old(input) + TextOf(poll) && flushed == old(flushed)
    {
      hide Found, Kept;
      eof := eof || poll.EndOfFile?;
      var previous := ansi;
      if poll.Bytes? {
        ansi := ansi + poll.text;
      }
      var expired := ansi == [ESC] && now - ansiSince >= ESCAPE_DELAY;
      var remainder;
      decoded, remainder := DecodeAnsi(ansi, expired && !poll.Bytes?, printable);
      if remainder != "" && (previous == "" || remainder != ansi) {
        ansiSince := now;
      }
      if expired && !poll.Bytes? {
        LoneEscape(printable);
        flushed := returned + pending + [ESCAPE];
        input := "";
      } else if poll.Bytes? {
        ChunksCompose(input, poll.text, false, printable);
        input := input + poll.text;
      } else {
        RemainderWaits(input, printable);
        assert input + "" == input;
      }
      ansi := remainder;
    }

    /** At most one key per call; what a poll brings beyond it queues up. */
    method Read(poll: Poll, now: real) returns (key: Option<Key>)
      requires Valid()
      modifies this
      ensures Valid()
      ensures returned == old(returned) + Keyed(key)
      ensures old(pending) != [] ==>
        && key == Some(old(pending)[0]) && input == old(input) && flushed == old(flushed)
        && ansi == old(ansi) && ansiSince == old(ansiSince) && eof == old(eof)
      ensures old(pending) == [] ==>
        && eof == (old(eof) || poll.EndOfFile?)
        && ansiSince == (if ansi != "" && (old(ansi) == "" || ansi != old(ansi) + TextOf(poll)) then now else old(ansiSince))
        && (if old(Expired(poll, now)) then input == "" && flushed == old(returned) + [ESCAPE]
            else input == old(input) + TextOf(poll) && flushed == old(flushed))
      ensures old(pending) == [] && key.None? ==> pending == []
    {
      hide Found, Kept;
      if pending == [] {
        var decoded := ReadPosix(poll, now);
        pending := pending + decoded;
      }
      if pending == [] {
        return None;
      }
      key := Some(pending[0]);
      returned := returned + [pending[0]];
      pending := pending[1..];
    }
  }
}
