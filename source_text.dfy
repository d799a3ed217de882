/** The emoji literals of PomodoroSession.swift:49-51 and
    PomodoroTimer.swift:539-543 as they stand in those files. Each is the
    UTF-8 encoding of the intended emoji read back as single-byte text: Mac
    Roman in the first file, Windows-1252 in the second (whose five undefined
    byte values are lost). The app would show these garbled strings. The rest
    of the model uses the intended emoji (`Sessions.SessionType.Emoji`,
    `TimerSpec.SessionTypeEmoji`). */
module SourceText {
  import opened Common
  import opened Sessions
  import opened TimerSpec

  // --- Single-byte decodings -------------------------------------------------------

  /** Mac Roman: bytes below 0x80 are ASCII; this table holds 0x80..0xFF. */
  const MacRomanHigh: string :=
      "\U{C4}\U{C5}\U{C7}\U{C9}\U{D1}\U{D6}\U{DC}\U{E1}\U{E0}\U{E2}\U{E4}\U{E3}\U{E5}\U{E7}\U{E9}\U{E8}" +
      "\U{EA}\U{EB}\U{ED}\U{EC}\U{EE}\U{EF}\U{F1}\U{F3}\U{F2}\U{F4}\U{F6}\U{F5}\U{FA}\U{F9}\U{FB}\U{FC}" +
      "\U{2020}\U{B0}\U{A2}\U{A3}\U{A7}\U{2022}\U{B6}\U{DF}\U{AE}\U{A9}\U{2122}\U{B4}\U{A8}\U{2260}\U{C6}\U{D8}" +
      "\U{221E}\U{B1}\U{2264}\U{2265}\U{A5}\U{B5}\U{2202}\U{2211}\U{220F}\U{3C0}\U{222B}\U{AA}\U{BA}\U{3A9}\U{E6}\U{F8}" +
      "\U{BF}\U{A1}\U{AC}\U{221A}\U{192}\U{2248}\U{2206}\U{AB}\U{BB}\U{2026}\U{A0}\U{C0}\U{C3}\U{D5}\U{152}\U{153}" +
      "\U{2013}\U{2014}\U{201C}\U{201D}\U{2018}\U{2019}\U{F7}\U{25CA}\U{FF}\U{178}\U{2044}\U{20AC}\U{2039}\U{203A}\U{FB01}\U{FB02}" +
      "\U{2021}\U{B7}\U{201A}\U{201E}\U{2030}\U{C2}\U{CA}\U{C1}\U{CB}\U{C8}\U{CD}\U{CE}\U{CF}\U{CC}\U{D3}\U{D4}" +
      "\U{F8FF}\U{D2}\U{DA}\U{DB}\U{D9}\U{131}\U{2C6}\U{2DC}\U{AF}\U{2D8}\U{2D9}\U{2DA}\U{B8}\U{2DD}\U{2DB}\U{2C7}"

  /** Text read from bytes as Mac Roman. */
  function MacRoman(bs: seq<byte>): (s: string)
    ensures |s| == |bs|
    decreases |bs|
  {
    if bs == [] then []
    else
      var b := bs[0] as int;
      [if b < 0x80 then b as char else MacRomanHigh[b - 0x80]] + MacRoman(bs[1..])
  }

  /** Windows-1252 for 0x80..0x9F (U+FFFD marks the five undefined values);
      0xA0..0xFF are the Latin-1 code points of the same value. */
  const Cp1252Low: string :=
      "\U{20AC}\U{FFFD}\U{201A}\U{192}\U{201E}\U{2026}\U{2020}\U{2021}\U{2C6}\U{2030}\U{160}\U{2039}\U{152}\U{FFFD}\U{17D}\U{FFFD}" +
      "\U{FFFD}\U{2018}\U{2019}\U{201C}\U{201D}\U{2022}\U{2013}\U{2014}\U{2DC}\U{2122}\U{161}\U{203A}\U{153}\U{FFFD}\U{17E}\U{178}"

  predicate Cp1252Undefined(b: byte) {
    b == 0x81 || b == 0x8D || b == 0x8F || b == 0x90 || b == 0x9D
  }

  /** Text read from bytes as Windows-1252, with undefined bytes dropped. */
  function Cp1252(bs: seq<byte>): (s: string)
    ensures |s| <= |bs|
    decreases |bs|
  {
    if bs == [] then []
    else
      var b := bs[0] as int;
      (if Cp1252Undefined(bs[0]) then []
       else [if 0x80 <= b < 0xA0 then Cp1252Low[b - 0x80] else b as char]) + Cp1252(bs[1..])
  }

  // --- The literals as written ---------------------------------------------------------

  /** `SessionType.emoji` as written. */
  function SessionEmojiAsWritten(t: SessionType): string {
    match t
    case Work => "\U{F8FF}\U{FC}\U{E7}\U{D6}"
    case ShortBreak => "\U{201A}\U{F2}\U{EF}\U{D4}\U{220F}\U{E8}"
    case LongBreak => "\U{F8FF}\U{FC}\U{E5}\U{A5}"
  }

  /** `sessionTypeEmoji` as written. */
  function TimerEmojiAsWritten(v: TimerState): string
    requires WellFormed(v)
  {
    if v.isBreakTime then
      if v.masterSessionStartTime.None? then "\U{F0}\U{178}\U{A7}\U{2DC}"
      else if ShouldUseLongBreak(v) then "\U{F0}\U{178}\U{152}\U{B4}" else "\U{E2}\U{2DC}\U{2022}\U{EF}\U{B8}"
    else "\U{F0}\U{178}\U{2026}"
  }

  // --- What the literals are ------------------------------------------------------------

  /** The UTF-8 bytes of the four emoji. */
  lemma TomatoBytes()
    ensures Utf8(Work.Emoji()) == Utf8("\U{1F345}") == [0xF0, 0x9F, 0x8D, 0x85]
  {
  }

  lemma CoffeeBytes()
    ensures Utf8(ShortBreak.Emoji()) == Utf8("\U{2615}\U{FE0F}") == [0xE2, 0x98, 0x95, 0xEF, 0xB8, 0x8F]
  {
  }

  lemma PalmBytes()
    ensures Utf8(LongBreak.Emoji()) == Utf8("\U{1F334}") == [0xF0, 0x9F, 0x8C, 0xB4]
  {
  }

  lemma MeditationBytes()
    ensures Utf8("\U{1F9D8}") == [0xF0, 0x9F, 0xA7, 0x98]
  {
  }

  lemma TomatoMacRoman()
    ensures SessionEmojiAsWritten(Work) == MacRoman(Utf8(Work.Emoji()))
  {
    TomatoBytes();
    assert MacRoman([0xF0, 0x9F, 0x8D, 0x85]) == SessionEmojiAsWritten(Work);
  }

  lemma CoffeeMacRoman()
    ensures SessionEmojiAsWritten(ShortBreak) == MacRoman(Utf8(ShortBreak.Emoji()))
  {
    CoffeeBytes();
    assert MacRoman([0x8F]) == "\U{E8}";
    assert MacRoman([0xB8, 0x8F]) == "\U{220F}\U{E8}";
    assert MacRoman([0xEF, 0xB8, 0x8F]) == "\U{D4}\U{220F}\U{E8}";
    assert MacRoman([0x95, 0xEF, 0xB8, 0x8F]) == "\U{EF}\U{D4}\U{220F}\U{E8}";
    assert MacRoman([0xE2, 0x98, 0x95, 0xEF, 0xB8, 0x8F]) == SessionEmojiAsWritten(ShortBreak);
  }

  lemma PalmMacRoman()
    ensures SessionEmojiAsWritten(LongBreak) == MacRoman(Utf8(LongBreak.Emoji()))
  {
    PalmBytes();
    assert MacRoman([0xF0, 0x9F, 0x8C, 0xB4]) == SessionEmojiAsWritten(LongBreak);
  }

  /** Each session emoji as written is the UTF-8 encoding of the intended
      emoji read as Mac Roman, and is not that emoji. */
  lemma SessionEmojiIsMacRoman(t: SessionType)
    ensures SessionEmojiAsWritten(t) == MacRoman(Utf8(t.Emoji()))
    ensures SessionEmojiAsWritten(t) != t.Emoji()
  {
    match t
    case Work => TomatoMacRoman();
    case ShortBreak => CoffeeMacRoman();
    case LongBreak => PalmMacRoman();
  }

  lemma TomatoCp1252()
    ensures "\U{F0}\U{178}\U{2026}" == Cp1252(Utf8("\U{1F345}"))
  {
    TomatoBytes();
    assert Cp1252([0xF0, 0x9F, 0x8D, 0x85]) == "\U{F0}\U{178}\U{2026}";
  }

  lemma MeditationCp1252()
    ensures "\U{F0}\U{178}\U{A7}\U{2DC}" == Cp1252(Utf8("\U{1F9D8}"))
  {
    MeditationBytes();
    assert Cp1252([0xF0, 0x9F, 0xA7, 0x98]) == "\U{F0}\U{178}\U{A7}\U{2DC}";
  }

  lemma PalmCp1252()
    ensures "\U{F0}\U{178}\U{152}\U{B4}" == Cp1252(Utf8("\U{1F334}"))
  {
    PalmBytes();
    assert Cp1252([0xF0, 0x9F, 0x8C, 0xB4]) == "\U{F0}\U{178}\U{152}\U{B4}";
  }

  lemma CoffeeCp1252()
    ensures "\U{E2}\U{2DC}\U{2022}\U{EF}\U{B8}" == Cp1252(Utf8("\U{2615}\U{FE0F}"))
  {
    CoffeeBytes();
    assert Cp1252([0xB8, 0x8F]) == "\U{B8}";
    assert Cp1252([0x95, 0xEF, 0xB8, 0x8F]) == "\U{2022}\U{EF}\U{B8}";
    assert Cp1252([0xE2, 0x98, 0x95, 0xEF, 0xB8, 0x8F]) == "\U{E2}\U{2DC}\U{2022}\U{EF}\U{B8}";
  }

  /** Each timer emoji as written is the UTF-8 encoding of the intended
      emoji read as Windows-1252, and is not that emoji. */
  lemma TimerEmojiIsCp1252(v: TimerState)
    requires WellFormed(v)
    ensures TimerEmojiAsWritten(v) == Cp1252(Utf8(SessionTypeEmoji(v)))
    ensures TimerEmojiAsWritten(v) != SessionTypeEmoji(v)
  {
    if !v.isBreakTime {
      TomatoCp1252();
    } else if v.masterSessionStartTime.None? {
      MeditationCp1252();
    } else if ShouldUseLongBreak(v) {
      PalmCp1252();
    } else {
      CoffeeCp1252();
    }
  }

  /** As written, the menu bar's emoji for a work session is not the emoji
      the work session itself carries, although both stand for the same
      tomato; with the intended literals the two agree. */
  lemma WorkEmojiDisagree(v: TimerState)
    requires WellFormed(v) && !v.isBreakTime
    ensures TimerEmojiAsWritten(v) != SessionEmojiAsWritten(Work)
    ensures SessionTypeEmoji(v) == Work.Emoji()
  {
    assert TimerEmojiAsWritten(v)[0] != SessionEmojiAsWritten(Work)[0];
  }
}
