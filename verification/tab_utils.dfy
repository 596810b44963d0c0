/** The fretboard model of tab_utils.py: the hand-written note-to-position table,
    the standard tuning, the twelve note names, the lookups over the table and the
    (string, fret) to note-name arithmetic. */
module TabUtils {
  import opened Numerals

  /** One (string, fret) pair of the table. */
  datatype Position = Position(str: int, fret: int)

  /** The triple `(note_name, string, fret)` that guitar_tab_to_note returns. */
  datatype FretNote = FretNote(name: string, str: int, fret: int)

  /** NOTE_TO_TAB_POSITIONS, exactly the eight entries the source writes out. */
  const NoteToTabPositions: map<string, seq<Position>> := map[
    "E2" := [Position(6, 0)],
    "F2" := [Position(6, 1)],
    "F#2" := [Position(6, 2)],
    "G2" := [Position(6, 3)],
    "G#2" := [Position(6, 4)],
    "A2" := [Position(6, 5), Position(5, 0)],
    "A#2" := [Position(6, 6), Position(5, 1)],
    "B2" := [Position(6, 7), Position(5, 2)]
  ]

  /** MIDI numbers of the open strings, low E first. */
  const StandardTuning: seq<int> := [40, 45, 50, 55, 59, 64]

  /** Sharp spellings of the twelve pitch classes, C first. */
  const NoteNames: seq<string> := ["C", "C#", "D", "D#", "E", "F", "F#", "G", "G#", "A", "A#", "B"]

  lemma TuningShape()
    ensures |StandardTuning| == 6
    ensures forall i, j | 0 <= i < j < 6 :: StandardTuning[i] < StandardTuning[j]
  {
  }

  lemma NoteNamesShape()
    ensures |NoteNames| == 12
    ensures forall i, j | 0 <= i < j < 12 :: NoteNames[i] != NoteNames[j]
  {
  }

  /** The first index at or after `from` where NoteNames holds `name`. */
  function FindName(name: string, from: nat): (r: Option<nat>)
    requires from <= |NoteNames|
    ensures r.Some? ==> from <= r.value < |NoteNames| && NoteNames[r.value] == name
    ensures r.None? ==> forall k | from <= k < |NoteNames| :: NoteNames[k] != name
    decreases |NoteNames| - from
  {
    if from == |NoteNames| then None
    else if NoteNames[from] == name then Some(from)
    else FindName(name, from + 1)
  }

  /** The index of a name in NoteNames, if it is one of them. */
  function NameIndex(name: string): (r: Option<nat>)
    ensures r.Some? ==> r.value < 12 && NoteNames[r.value] == name
    ensures r.None? ==> name !in NoteNames
  {
    FindName(name, 0)
  }

  /** The MIDI number a key such as "A#2" denotes in scientific pitch notation
      (octave 4 starts at MIDI 60), or None when the key is not a note name
      from NoteNames followed by an integer. */
  function KeyMidi(key: string): Option<int> {
    var split := if |key| >= 2 && key[1] == '#' then 2 else 1;
    if |key| < split then None
    else match (NameIndex(key[..split]), ParseInt(key[split..]))
      case (Some(i), Some(octave)) => Some(12 * (octave + 1) + i)
      case _ => None
  }

  /** Every name of NoteNames is found at its own index, and is one letter or
      a letter followed by '#'. */
  lemma NameIndexOf(i: nat)
    requires i < 12
    ensures NameIndex(NoteNames[i]) == Some(i)
    ensures |NoteNames[i]| == 1 || (|NoteNames[i]| == 2 && NoteNames[i][1] == '#')
  {
    NoteNamesShape();
  }

  /** A key made of a name found at index i and the decimal form of an octave
      denotes pitch class i in that octave. */
  lemma KeyMidiOfParts(name: string, digits: string, i: nat, octave: int)
    requires NameIndex(name) == Some(i) && ParseInt(digits) == Some(octave)
    requires |name| == 1 || (|name| == 2 && name[1] == '#')
    requires |digits| >= 1 && digits[0] != '#'
    ensures KeyMidi(name + digits) == Some(12 * (octave + 1) + i)
  {
    var key := name + digits;
    if |name| == 2 {
      assert key[..2] == name && key[2..] == digits;
    } else {
      assert key[1] == digits[0];
      assert key[..1] == name && key[1..] == digits;
    }
  }

  /** A note name followed by `str(octave)` denotes pitch class i in that octave. */
  lemma KeyMidiOf(i: nat, octave: int)
    requires i < 12
    ensures KeyMidi(NoteNames[i] + IntToString(octave)) == Some(12 * (octave + 1) + i)
  {
    NameIndexOf(i);
    ParseIntToString(octave);
    KeyMidiOfParts(NoteNames[i], IntToString(octave), i, octave);
  }

  /** The scientific-pitch name of a MIDI number: its pitch-class name followed by
      its octave, where MIDI 12 starts octave 0 (so MIDI 40 is "E2"). */
  function PitchName(midi: int): string {
    NoteNames[midi % 12] + IntToString(midi / 12 - 1)
  }

  /** Different pitches have different names. */
  lemma PitchNameInjective(m1: int, m2: int)
    requires m1 != m2
    ensures PitchName(m1) != PitchName(m2)
  {
    KeyMidiOf(m1 % 12, m1 / 12 - 1);
    KeyMidiOf(m2 % 12, m2 / 12 - 1);
  }

  /** The pitch a table position sounds under the table's own numbering,
      which counts strings from the high E: string 6 is the low E (MIDI 40)
      and string 5 the A (MIDI 45). */
  function TablePitch(p: Position): int
    requires 1 <= p.str <= 6
  {
    StandardTuning[6 - p.str] + p.fret
  }

  /** One entry of NOTE_TO_TAB_POSITIONS: non-empty, only the two lowest strings at
      frets 0..7, string 6 listed before string 5, and the key is the name of the
      pitch every one of its positions sounds. */
  predicate EntryWellFormed(key: string, ps: seq<Position>) {
    && ps != []
    && (forall p | p in ps :: (p.str == 5 || p.str == 6) && 0 <= p.fret <= 7 && key == PitchName(TablePitch(p)))
    && (forall i, j | 0 <= i < j < |ps| :: ps[i].str > ps[j].str)
  }

  /** An entry whose positions all sound the pitch its key names, on the two
      lowest strings at frets 0..7, string 6 first, is well formed. */
  lemma EntryOfPitch(key: string, ps: seq<Position>, pitch: int)
    requires key == PitchName(pitch) && ps != []
    requires forall p | p in ps :: (p.str == 5 || p.str == 6) && 0 <= p.fret <= 7 && TablePitch(p) == pitch
    requires forall i, j | 0 <= i < j < |ps| :: ps[i].str > ps[j].str
    ensures EntryWellFormed(key, ps)
  {
  }

  lemma EntryE2()
    ensures "E2" in NoteToTabPositions && EntryWellFormed("E2", NoteToTabPositions["E2"])
  {
    SameName(4, 2, 40 % 12, 40 / 12 - 1);
    assert NoteNames[4] + IntToString(2) == "E2" by {
      assert IntToString(2) == "2";
    }
    EntryOfPitch("E2", NoteToTabPositions["E2"], 40);
  }

  lemma EntryF2()
    ensures "F2" in NoteToTabPositions && EntryWellFormed("F2", NoteToTabPositions["F2"])
  {
    SameName(5, 2, 41 % 12, 41 / 12 - 1);
    assert NoteNames[5] + IntToString(2) == "F2" by {
      assert IntToString(2) == "2";
    }
    EntryOfPitch("F2", NoteToTabPositions["F2"], 41);
  }

  lemma EntryFSharp2()
    ensures "F#2" in NoteToTabPositions && EntryWellFormed("F#2", NoteToTabPositions["F#2"])
  {
    SameName(6, 2, 42 % 12, 42 / 12 - 1);
    assert NoteNames[6] + IntToString(2) == "F#2" by {
      assert IntToString(2) == "2";
    }
    EntryOfPitch("F#2", NoteToTabPositions["F#2"], 42);
  }

  lemma EntryG2()
    ensures "G2" in NoteToTabPositions && EntryWellFormed("G2", NoteToTabPositions["G2"])
  {
    SameName(7, 2, 43 % 12, 43 / 12 - 1);
    assert NoteNames[7] + IntToString(2) == "G2" by {
      assert IntToString(2) == "2";
    }
    EntryOfPitch("G2", NoteToTabPositions["G2"], 43);
  }

  lemma EntryGSharp2()
    ensures "G#2" in NoteToTabPositions && EntryWellFormed("G#2", NoteToTabPositions["G#2"])
  {
    SameName(8, 2, 44 % 12, 44 / 12 - 1);
    assert NoteNames[8] + IntToString(2) == "G#2" by {
      assert IntToString(2) == "2";
    }
    EntryOfPitch("G#2", NoteToTabPositions["G#2"], 44);
  }

  lemma EntryA2()
    ensures "A2" in NoteToTabPositions && EntryWellFormed("A2", NoteToTabPositions["A2"])
  {
    SameName(9, 2, 45 % 12, 45 / 12 - 1);
    assert NoteNames[9] + IntToString(2) == "A2" by {
      assert IntToString(2) == "2";
    }
    EntryOfPitch("A2", NoteToTabPositions["A2"], 45);
  }

  lemma EntryASharp2()
    ensures "A#2" in NoteToTabPositions && EntryWellFormed("A#2", NoteToTabPositions["A#2"])
  {
    SameName(10, 2, 46 % 12, 46 / 12 - 1);
    assert NoteNames[10] + IntToString(2) == "A#2" by {
      assert IntToString(2) == "2";
    }
    EntryOfPitch("A#2", NoteToTabPositions["A#2"], 46);
  }

  lemma EntryB2()
    ensures "B2" in NoteToTabPositions && EntryWellFormed("B2", NoteToTabPositions["B2"])
  {
    SameName(11, 2, 47 % 12, 47 / 12 - 1);
    assert NoteNames[11] + IntToString(2) == "B2" by {
      assert IntToString(2) == "2";
    }
    EntryOfPitch("B2", NoteToTabPositions["B2"], 47);
  }

  lemma EntryFacts(key: string)
    requires key in NoteToTabPositions
    ensures EntryWellFormed(key, NoteToTabPositions[key])
  {
    if key == "E2" {
      EntryE2();
    } else if key == "F2" {
      EntryF2();
    } else if key == "F#2" {
      EntryFSharp2();
    } else if key == "G2" {
      EntryG2();
    } else if key == "G#2" {
      EntryGSharp2();
    } else if key == "A2" {
      EntryA2();
    } else if key == "A#2" {
      EntryASharp2();
    } else {
      EntryB2();
    }
  }

  /** Every entry of NOTE_TO_TAB_POSITIONS is well formed. */
  lemma TableFacts()
    ensures forall key | key in NoteToTabPositions :: EntryWellFormed(key, NoteToTabPositions[key])
  {
    forall key | key in NoteToTabPositions
      ensures EntryWellFormed(key, NoteToTabPositions[key])
    {
      EntryFacts(key);
    }
  }

  /** Every key of the table is in octave 2: a name followed by the decimal
      form of any other octave is never a key. */
  lemma KeyOffOctave(name: string, octave: int)
    requires octave != 2
    ensures name + IntToString(octave) !in NoteToTabPositions
  {
    var digits := IntToString(octave);
    var key := name + digits;
    if |digits| == 1 {
      assert 0 <= octave < 10;
      assert key[|key| - 1] == DigitChar(octave);
    } else {
      assert key[|key| - 2] == '-' || IsDigit(key[|key| - 2]);
    }
  }

  /** note_name_to_guitar_tab: the table's list for a key it holds, an empty list
      (never an error) for any other key; the list is non-empty exactly for the
      keys of the table. */
  function NoteNameToGuitarTab(noteNameWithOctave: string): (r: seq<Position>)
    ensures noteNameWithOctave in NoteToTabPositions ==> r == NoteToTabPositions[noteNameWithOctave]
    ensures noteNameWithOctave !in NoteToTabPositions ==> r == []
    ensures r != [] <==> noteNameWithOctave in NoteToTabPositions
  {
    if noteNameWithOctave in NoteToTabPositions then
      EntryFacts(noteNameWithOctave);
      NoteToTabPositions[noteNameWithOctave]
    else []
  }

  /** Whatever note_name_to_guitar_tab returns lies on the two lowest strings at
      frets 0..7, is listed string 6 first, and sounds the pitch the key names. */
  lemma GuitarTabPositions(noteNameWithOctave: string)
    ensures var r := NoteNameToGuitarTab(noteNameWithOctave);
      && (forall p | p in r :: (p.str == 5 || p.str == 6) && 0 <= p.fret <= 7)
      && (forall p | p in r :: noteNameWithOctave == PitchName(TablePitch(p)))
      && (forall i, j | 0 <= i < j < |r| :: r[i].str > r[j].str)
  {
    if noteNameWithOctave in NoteToTabPositions {
      EntryFacts(noteNameWithOctave);
    }
  }

  /** note_to_tab: the same lookup under another name: the table's list for a
      key it holds, an empty list for any other key. */
  function NoteToTab(noteName: string): (r: seq<Position>)
    ensures noteName in NoteToTabPositions ==> r == NoteToTabPositions[noteName]
    ensures noteName !in NoteToTabPositions ==> r == []
    ensures r != [] <==> noteName in NoteToTabPositions
  {
    if noteName in NoteToTabPositions then
      EntryFacts(noteName);
      NoteToTabPositions[noteName]
    else []
  }

  /** The two lookups agree on every input. */
  lemma LookupsAgree(name: string)
    ensures NoteToTab(name) == NoteNameToGuitarTab(name)
  {
  }

  /** What chord_to_tab returns: the lookups of the chord's notes, concatenated
      in the chord's order. */
  function ChordPositions(chord: seq<string>): seq<Position> {
    if chord == [] then [] else ChordPositions(chord[..|chord| - 1]) + NoteToTab(chord[|chord| - 1])
  }

  /** The total number of positions the notes of a chord have in the table. */
  function PositionCount(chord: seq<string>): nat {
    if chord == [] then 0 else PositionCount(chord[..|chord| - 1]) + |NoteToTab(chord[|chord| - 1])|
  }

  /** chord_to_tab: the positions list grown note by note with `extend`. */
  method ChordToTab(chord: seq<string>) returns (positions: seq<Position>)
    ensures positions == ChordPositions(chord)
  {
    positions := [];
    for k := 0 to |chord|
      invariant positions == ChordPositions(chord[..k])
    {
      assert chord[..k + 1][..k] == chord[..k];
      positions := positions + NoteToTab(chord[k]);
    }
    assert chord[..|chord|] == chord;
  }

  /** Regrouping a concatenation. Stated once so that proofs about lists of
      positions or events need not rediscover it through the definitions of
      what they concatenate, which keeps them within the solver's budget. */
  lemma ConcatAssoc<T>(a: seq<T>, b: seq<T>, c: seq<T>)
    ensures (a + b) + c == a + (b + c)
  {
  }

  /** Concatenation over two halves of a chord is the concatenation of the halves. */
  lemma {:induction false} ChordPositionsAppend(a: seq<string>, b: seq<string>)
    ensures ChordPositions(a + b) == ChordPositions(a) + ChordPositions(b)
    decreases |b|
  {
    if b == [] {
      assert a + b == a;
    } else {
      var b' := b[..|b| - 1];
      assert (a + b)[..|a + b| - 1] == a + b';
      assert (a + b)[|a + b| - 1] == b[|b| - 1];
      ChordPositionsAppend(a, b');
      ConcatAssoc(ChordPositions(a), ChordPositions(b'), NoteToTab(b[|b| - 1]));
    }
  }

  /** chord_to_tab yields one entry per table position of each note: its length
      is the sum of the per-note counts, and an empty chord yields nothing. */
  lemma {:induction false} ChordPositionsLength(chord: seq<string>)
    ensures |ChordPositions(chord)| == PositionCount(chord)
    ensures chord == [] ==> ChordPositions(chord) == []
  {
    if chord != [] {
      ChordPositionsLength(chord[..|chord| - 1]);
    }
  }

  /** A position is in chord_to_tab's result exactly when it is a table position
      of one of the chord's notes. */
  lemma {:induction false} ChordPositionsMembers(chord: seq<string>, p: Position)
    ensures p in ChordPositions(chord) <==> exists k | 0 <= k < |chord| :: p in NoteToTab(chord[k])
  {
    if chord != [] {
      var init := chord[..|chord| - 1];
      ChordPositionsMembers(init, p);
      if exists k | 0 <= k < |chord| :: p in NoteToTab(chord[k]) {
        var k :| 0 <= k < |chord| && p in NoteToTab(chord[k]);
        if k < |chord| - 1 {
          assert chord[k] == init[k];
        }
      }
      if exists k | 0 <= k < |init| :: p in NoteToTab(init[k]) {
        var k :| 0 <= k < |init| && p in NoteToTab(init[k]);
        assert init[k] == chord[k];
      }
    }
  }

  /** One position of one entry of NOTE_TO_TAB_POSITIONS: on string 5 or 6,
      at a fret in 0..7, sounding the pitch its key names. */
  lemma EntryMember(key: string, p: Position)
    requires key in NoteToTabPositions && p in NoteToTabPositions[key]
    ensures (p.str == 5 || p.str == 6) && 0 <= p.fret <= 7
    ensures key == PitchName(TablePitch(p))
  {
    EntryFacts(key);
  }

  /** Names built from equal parts are equal. Dafny knows this; naming the
      parts as a note-name index and an octave lets the proofs about PitchName
      avoid unfolding it over arithmetic, which is what keeps them within the
      solver's budget. */
  lemma SameName(i: int, octave: int, j: int, octave': int)
    requires 0 <= i < 12 && i == j && octave == octave'
    ensures NoteNames[i] + IntToString(octave) == NoteNames[j] + IntToString(octave')
  {
  }

  /** The MIDI number whose name guitar_tab_to_note returns: the number it
      computes from `standard_tuning[s - 1]`, one octave up. */
  function NamedMidi(str: int, fret: int): int
    requires 1 <= str <= 6
  {
    StandardTuning[str - 1] + fret + 12
  }

  /** guitar_tab_to_note, as written: string s reads `standard_tuning[s - 1]`, so
      string 1 is the low E, and the octave `(midi - 12) // 12 + 1` is `midi // 12`
      (floor division, as Python's `//` and `%` are for a positive divisor). The
      name it returns is therefore the name of the pitch one octave ABOVE the MIDI
      number it computed; string and fret come back unchanged. */
  function GuitarTabToNote(str: int, fret: int): (r: FretNote)
    requires 1 <= str <= 6
    ensures r.str == str && r.fret == fret
    ensures r.name == PitchName(NamedMidi(str, fret))
  {
    var midi := StandardTuning[str - 1] + fret;
    var noteNameIndex := (midi - 12) % 12;
    var octave := (midi - 12) / 12 + 1;
    SameName(noteNameIndex, octave, NamedMidi(str, fret) % 12, NamedMidi(str, fret) / 12 - 1);
    FretNote(NoteNames[noteNameIndex] + IntToString(octave), str, fret)
  }

  /** The arithmetic of guitar_tab_to_note: the name index `(midi - 12) % 12` is
      a valid index equal to `midi % 12`, the octave `(midi - 12) // 12 + 1` is
      `midi // 12`, and the name is NoteNames at the one followed by the other. */
  lemma GuitarTabToNoteParts(str: int, fret: int)
    requires 1 <= str <= 6
    ensures var midi := StandardTuning[str - 1] + fret;
      && 0 <= (midi - 12) % 12 < 12 && (midi - 12) % 12 == midi % 12
      && (midi - 12) / 12 + 1 == midi / 12
      && GuitarTabToNote(str, fret).name == NoteNames[midi % 12] + IntToString(midi / 12)
  {
    var midi := StandardTuning[str - 1] + fret;
    SameName(midi % 12, midi / 12, NamedMidi(str, fret) % 12, NamedMidi(str, fret) / 12 - 1);
  }

  /** String 1 open is the low E, MIDI 40, and is named "E3". */
  lemma GuitarTabToNoteStringOne()
    ensures GuitarTabToNote(1, 0) == FretNote("E3", 1, 0)
  {
    assert NamedMidi(1, 0) == 52;
    SameName(4, 3, 52 % 12, 52 / 12 - 1);
    assert NoteNames[4] + IntToString(3) == "E3" by {
      assert IntToString(3) == "3";
    }
  }

  /** String 6 open is the high E, MIDI 64, and is named "E5", while the table
      files (6, 0) under "E2". */
  lemma GuitarTabToNoteStringSix()
    ensures GuitarTabToNote(6, 0) == FretNote("E5", 6, 0)
    ensures Position(6, 0) in NoteNameToGuitarTab("E2")
  {
    assert NamedMidi(6, 0) == 76;
    SameName(4, 5, 76 % 12, 76 / 12 - 1);
    assert NoteNames[4] + IntToString(5) == "E5" by {
      assert IntToString(5) == "5";
    }
  }

  /** guitar_tab_to_note with the two evident corrections: strings are numbered
      as the table numbers them (string 6 is the low E, `standard_tuning[6 - s]`)
      and MIDI 12 starts octave 0 (`(midi - 12) // 12`, without the `+ 1`). */
  function IntendedTabToNote(str: int, fret: int): (r: FretNote)
    requires 1 <= str <= 6
    ensures r.str == str && r.fret == fret
    ensures r.name == PitchName(TablePitch(Position(str, fret)))
  {
    var midi := StandardTuning[6 - str] + fret;
    var noteNameIndex := (midi - 12) % 12;
    var octave := (midi - 12) / 12;
    SameName(noteNameIndex, octave, TablePitch(Position(str, fret)) % 12, TablePitch(Position(str, fret)) / 12 - 1);
    FretNote(NoteNames[noteNameIndex] + IntToString(octave), str, fret)
  }

  /** The corrected conversion inverts the table: every listed position comes
      back under the key that lists it. */
  lemma IntendedRoundTrip(key: string, p: Position)
    requires key in NoteToTabPositions && p in NoteToTabPositions[key]
    ensures 1 <= p.str <= 6
    ensures IntendedTabToNote(p.str, p.fret).name == key
  {
    EntryMember(key, p);
    assert Position(p.str, p.fret) == p;
  }

  /** On no string and no fret does the code as written name the pitch the
      corrected conversion names: it reads the string mirrored and names the
      octave above. */
  lemma AsWrittenDisagrees(str: int, fret: int)
    requires 1 <= str <= 6
    ensures GuitarTabToNote(str, fret).name != IntendedTabToNote(str, fret).name
  {
    MirroredStringDiffers(str, fret);
    PitchNameInjective(NamedMidi(str, fret), TablePitch(Position(str, fret)));
  }

  /** String s read as `standard_tuning[s - 1]`, an octave up, never sounds what
      the table's string s sounds. */
  lemma MirroredStringDiffers(str: int, fret: int)
    requires 1 <= str <= 6
    ensures NamedMidi(str, fret) != TablePitch(Position(str, fret))
  {
  }

  /** No position of the table comes back under its own key: guitar_tab_to_note
      as written is not an inverse of the table. */
  lemma GuitarTabToNoteMissesTable(key: string, p: Position)
    requires key in NoteToTabPositions && p in NoteToTabPositions[key]
    ensures 1 <= p.str <= 6
    ensures GuitarTabToNote(p.str, p.fret).name != key
  {
    IntendedRoundTrip(key, p);
    AsWrittenDisagrees(p.str, p.fret);
  }
}
