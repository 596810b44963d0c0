/** The tablature assembler of export_to_tab.py: walk a chord sequence, respell
    flat notes as sharps, look each note up in the fretboard table and append one
    tablature note per position to a staff that starts with the guitar. */
module ExportToTab {
  import opened Numerals
  import opened TabUtils

  /** The letter of a note name. */
  datatype Step = C | D | E | F | G | A | B

  /** At most one sharp or one flat; music21 writes them '#' and '-'. */
  datatype Accidental = Natural | Sharp | Flat

  datatype NoteName = NoteName(step: Step, accidental: Accidental)

  /** A note of a chord: its spelled name and its octave. */
  datatype Note = Note(name: NoteName, octave: int)

  /** An entry of the chord sequence: a chord, or anything else. */
  datatype Entry = Chord(notes: seq<Note>) | Other

  /** What the staff holds: the instrument, and tablature notes with their
      fret, string and the note they are linked to. The linked note is built
      from a bare name, so it carries a name and no octave. */
  datatype StaffElement =
    | AcousticGuitar
    | TablatureNote(fret: int, str: int, linkedNote: NoteName)

  function StepLetter(s: Step): char {
    match s
    case C => 'C' case D => 'D' case E => 'E' case F => 'F'
    case G => 'G' case A => 'A' case B => 'B'
  }

  /** Semitones of the natural note above C. */
  function StepSemitone(s: Step): int {
    match s
    case C => 0 case D => 2 case E => 4 case F => 5
    case G => 7 case A => 9 case B => 11
  }

  function Alter(a: Accidental): int {
    match a
    case Natural => 0 case Sharp => 1 case Flat => -1
  }

  /** `n.name` in music21: the letter, then '#' for a sharp or '-' for a flat. */
  function Spell(n: NoteName): (s: string)
    ensures |s| >= 1 && s[0] == StepLetter(n.step)
    ensures '-' in s <==> n.accidental == Flat
  {
    [StepLetter(n.step)] + match n.accidental
      case Natural => ""
      case Sharp => "#"
      case Flat => "-"
  }

  function PitchClass(n: NoteName): int {
    (StepSemitone(n.step) + Alter(n.accidental)) % 12
  }

  /** The MIDI number a note sounds: octave 4 starts at MIDI 60. */
  function NoteMidi(n: Note): int {
    12 * (n.octave + 1) + StepSemitone(n.name.step) + Alter(n.name.accidental)
  }

  /** `getEnharmonic().name` for a single flat: the next lower letter, spelled
      with whatever accidental keeps the pitch (C- is B, F- is E). */
  function Enharmonic(n: NoteName): (r: NoteName)
    requires n.accidental == Flat
    ensures r.accidental != Flat && r.step != n.step
    ensures r != NoteName(E, Sharp) && r != NoteName(B, Sharp)
    ensures StepSemitone(r.step) + Alter(r.accidental) ==
      StepSemitone(n.step) + Alter(n.accidental) + (if n.step == C then 12 else 0)
  {
    match n.step
    case C => NoteName(B, Natural)
    case D => NoteName(C, Sharp)
    case E => NoteName(D, Sharp)
    case F => NoteName(E, Natural)
    case G => NoteName(F, Sharp)
    case A => NoteName(G, Sharp)
    case B => NoteName(A, Sharp)
  }

  /** The name looked up: a name containing '-' is replaced by its enharmonic,
      any other name is kept. The result never has a flat and names the same
      pitch class. */
  function SharpSpelling(n: NoteName): (r: NoteName)
    ensures '-' !in Spell(n) ==> r == n
    ensures '-' !in Spell(r)
    ensures PitchClass(r) == PitchClass(n)
  {
    if '-' in Spell(n) then Enharmonic(n) else n
  }

  /** The key handed to note_name_to_guitar_tab: the respelled name followed by
      the note's OWN octave. */
  function LookupKey(n: Note): (key: string)
    ensures |key| > |IntToString(n.octave)|
    ensures key[|key| - |IntToString(n.octave)|..] == IntToString(n.octave)
    ensures '-' !in key[..|key| - |IntToString(n.octave)|]
  {
    Spell(SharpSpelling(n.name)) + IntToString(n.octave)
  }

  /** The lists of a sequence joined end to end, first list first. */
  function Flatten<T>(xss: seq<seq<T>>): seq<T> {
    if xss == [] then [] else Flatten(xss[..|xss| - 1]) + xss[|xss| - 1]
  }

  /** One more list extends the join by exactly that list. */
  lemma FlattenStep<T>(xss: seq<seq<T>>, j: nat)
    requires j < |xss|
    ensures Flatten(xss[..j + 1]) == Flatten(xss[..j]) + xss[j]
  {
    assert xss[..j + 1][..j] == xss[..j];
  }

  /** Joining two parts is joining each and putting the results side by side. */
  lemma {:induction false} FlattenAppend<T>(a: seq<seq<T>>, b: seq<seq<T>>)
    ensures Flatten(a + b) == Flatten(a) + Flatten(b)
    decreases |b|
  {
    if b == [] {
      assert a + b == a;
    } else {
      var b' := b[..|b| - 1];
      assert (a + b)[..|a + b| - 1] == a + b';
      assert (a + b)[|a + b| - 1] == b[|b| - 1];
      FlattenAppend(a, b');
      ConcatAssoc(Flatten(a), Flatten(b'), b[|b| - 1]);
    }
  }

  /** An element is in the join exactly when it is in one of the lists. */
  lemma FlattenMembers<T>(xss: seq<seq<T>>, e: T)
    ensures e in Flatten(xss) <==> exists i | 0 <= i < |xss| :: e in xss[i]
  {
    if e in Flatten(xss) {
      FlattenMemberFrom(xss, e);
    } else if exists i | 0 <= i < |xss| :: e in xss[i] {
      var i :| 0 <= i < |xss| && e in xss[i];
      FlattenMemberInto(xss, i, e);
    }
  }

  /** Every element of the join comes from one of the lists. */
  lemma {:induction false} FlattenMemberFrom<T>(xss: seq<seq<T>>, e: T)
    requires e in Flatten(xss)
    ensures exists i | 0 <= i < |xss| :: e in xss[i]
  {
    var init := xss[..|xss| - 1];
    if e in xss[|xss| - 1] {
    } else {
      FlattenMemberFrom(init, e);
      var i :| 0 <= i < |init| && e in init[i];
      assert init[i] == xss[i];
    }
  }

  /** Every element of one of the lists is in the join. */
  lemma {:induction false} FlattenMemberInto<T>(xss: seq<seq<T>>, i: int, e: T)
    requires 0 <= i < |xss| && e in xss[i]
    ensures e in Flatten(xss)
  {
    var init := xss[..|xss| - 1];
    if i < |init| {
      assert init[i] == xss[i];
      FlattenMemberInto(init, i, e);
    }
  }

  /** The tablature notes for a list of positions, all linked to the same name. */
  function EventsFor(positions: seq<Position>, linked: NoteName): seq<StaffElement> {
    if positions == [] then []
    else
      var last := positions[|positions| - 1];
      EventsFor(positions[..|positions| - 1], linked) + [TablatureNote(last.fret, last.str, linked)]
  }

  /** What one note of a chord adds to the staff. */
  function NoteEvents(n: Note): seq<StaffElement> {
    EventsFor(NoteNameToGuitarTab(LookupKey(n)), SharpSpelling(n.name))
  }

  /** The lists of events the notes of a chord add, one list per note, in the
      chord's order. */
  function ChordEventLists(notes: seq<Note>): seq<seq<StaffElement>> {
    seq(|notes|, j requires 0 <= j < |notes| => NoteEvents(notes[j]))
  }

  /** What one chord adds to the staff: its notes' events in the chord's order. */
  function ChordEvents(notes: seq<Note>): seq<StaffElement> {
    Flatten(ChordEventLists(notes))
  }

  /** What one entry of the sequence adds: a chord its events, anything else nothing. */
  function EntryEvents(entry: Entry): seq<StaffElement> {
    if entry.Chord? then ChordEvents(entry.notes) else []
  }

  /** The lists of events the entries of the sequence add, one list per entry. */
  function StaffEventLists(chordSequence: seq<Entry>): seq<seq<StaffElement>> {
    seq(|chordSequence|, i requires 0 <= i < |chordSequence| => EntryEvents(chordSequence[i]))
  }

  /** What the whole sequence adds after the instrument: the entries' events in
      sequence order. */
  function StaffEvents(chordSequence: seq<Entry>): seq<StaffElement> {
    Flatten(StaffEventLists(chordSequence))
  }

  /** stream.Stream: an ordered list of elements that insert and append grow. */
  class Staff {
    var elements: seq<StaffElement>

    constructor ()
      ensures elements == []
    {
      elements := [];
    }

    /** `insert(0, e)`: e goes in at offset 0, ahead of everything already there. */
    method InsertAtStart(e: StaffElement)
      modifies this
      ensures elements == [e] + old(elements)
    {
      elements := [e] + elements;
    }

    /** `append(e)`: e goes in after everything already there. */
    method Append(e: StaffElement)
      modifies this
      ensures elements == old(elements) + [e]
    {
      elements := elements + [e];
    }
  }

  /** The innermost loop of map_to_guitar_tab: one tablature note per position,
      in the positions' order, each linked to the respelled name. */
  method AppendTabNotes(guitarStaff: Staff, tabPositions: seq<Position>, noteName: NoteName)
    modifies guitarStaff
    ensures guitarStaff.elements == old(guitarStaff.elements) + EventsFor(tabPositions, noteName)
  {
    var before := guitarStaff.elements;
    for k := 0 to |tabPositions|
      invariant guitarStaff.elements == before + EventsFor(tabPositions[..k], noteName)
    {
      var tabNote := TablatureNote(tabPositions[k].fret, tabPositions[k].str, noteName);
      assert tabPositions[..k + 1][..k] == tabPositions[..k];
      guitarStaff.Append(tabNote);
    }
    assert tabPositions[..|tabPositions|] == tabPositions;
  }

  /** The loop over a chord's notes in map_to_guitar_tab: respell a flat name,
      build the key from the name and the note's octave, look it up, and append
      the tablature notes for what the table returns. */
  method AppendChord(guitarStaff: Staff, notes: seq<Note>)
    modifies guitarStaff
    ensures guitarStaff.elements == old(guitarStaff.elements) + ChordEvents(notes)
  {
    var done := guitarStaff.elements;
    ghost var lists := ChordEventLists(notes);
    for j := 0 to |notes|
      invariant guitarStaff.elements == done + Flatten(lists[..j])
    {
      var n := notes[j];
      var noteName := n.name;
      if '-' in Spell(noteName) {
        noteName := Enharmonic(noteName);
      }
      var noteNameWithOctave := Spell(noteName) + IntToString(n.octave);
      var tabPositions := NoteNameToGuitarTab(noteNameWithOctave);
      AppendTabNotes(guitarStaff, tabPositions, noteName);
      FlattenStep(lists, j);
      ConcatAssoc(done, Flatten(lists[..j]), lists[j]);
    }
    assert lists[..|notes|] == lists;
  }

  /** map_to_guitar_tab: the staff holds the guitar, then the events of every
      chord in sequence order; entries that are not chords are skipped. */
  method MapToGuitarTab(chordSequence: seq<Entry>) returns (guitarStaff: Staff)
    ensures fresh(guitarStaff)
    ensures guitarStaff.elements == [AcousticGuitar] + StaffEvents(chordSequence)
  {
    guitarStaff := new Staff();
    guitarStaff.InsertAtStart(AcousticGuitar);
    ghost var lists := StaffEventLists(chordSequence);
    for i := 0 to |chordSequence|
      invariant guitarStaff.elements == [AcousticGuitar] + Flatten(lists[..i])
    {
      var ch := chordSequence[i];
      if ch.Chord? {
        AppendChord(guitarStaff, ch.notes);
      }
      FlattenStep(lists, i);
      ConcatAssoc([AcousticGuitar], Flatten(lists[..i]), lists[i]);
    }
    assert lists[..|chordSequence|] == lists;
  }

  /** Each position becomes one tablature note, in the positions' order,
      carrying that position's fret and string and the given name. */
  lemma {:induction false} EventsForAt(positions: seq<Position>, linked: NoteName)
    ensures |EventsFor(positions, linked)| == |positions|
    ensures forall k | 0 <= k < |positions| ::
      EventsFor(positions, linked)[k] == TablatureNote(positions[k].fret, positions[k].str, linked)
  {
    if positions != [] {
      var init := positions[..|positions| - 1];
      EventsForAt(init, linked);
      assert forall k | 0 <= k < |init| :: init[k] == positions[k];
    }
  }

  /** The events of one note: one tablature note per position the table lists
      for its key, in the table's order (string 6 first), on the two lowest
      strings at frets 0..7, each linked to the sharp spelling of its name. */
  lemma NoteEventsShape(n: Note)
    ensures var ps, es := NoteNameToGuitarTab(LookupKey(n)), NoteEvents(n);
      && |es| == |ps|
      && (forall k | 0 <= k < |es| ::
            es[k] == TablatureNote(ps[k].fret, ps[k].str, SharpSpelling(n.name)))
      && (forall k | 0 <= k < |es| ::
            es[k].TablatureNote? && (es[k].str == 5 || es[k].str == 6) && 0 <= es[k].fret <= 7)
      && (forall i, j | 0 <= i < j < |es| :: es[i].str > es[j].str)
  {
    var ps := NoteNameToGuitarTab(LookupKey(n));
    EventsForAt(ps, SharpSpelling(n.name));
    GuitarTabPositions(LookupKey(n));
    assert forall k | 0 <= k < |ps| :: ps[k] in ps;
  }

  /** A name without a flat, other than E# and B#, is spelled exactly as
      NoteNames spells its pitch class. */
  lemma SpellingIndex(r: NoteName)
    requires r.accidental != Flat && r != NoteName(E, Sharp) && r != NoteName(B, Sharp)
    ensures 0 <= StepSemitone(r.step) + Alter(r.accidental) < 12
    ensures Spell(r) == NoteNames[StepSemitone(r.step) + Alter(r.accidental)]
  {
    match r.step
    case C => assert Spell(r) == if r.accidental == Sharp then "C#" else "C";
    case D => assert Spell(r) == if r.accidental == Sharp then "D#" else "D";
    case E => assert Spell(r) == "E";
    case F => assert Spell(r) == if r.accidental == Sharp then "F#" else "F";
    case G => assert Spell(r) == if r.accidental == Sharp then "G#" else "G";
    case A => assert Spell(r) == if r.accidental == Sharp then "A#" else "A";
    case B => assert Spell(r) == "B";
  }

  /** A key spelled E# or B# is not in the table: every key of the table is a
      name from NoteNames followed by an octave. */
  lemma SharpKeyNotInTable(name: string, octave: int)
    requires name == "E#" || name == "B#"
    ensures name + IntToString(octave) !in NoteToTabPositions
  {
    var key := name + IntToString(octave);
    assert key[0] == name[0] && key[1] == '#';
  }

  /** The pitch the key of a note names: the note's own pitch, except for a C
      flat, which is respelled B but keeps its octave and so names the B an
      octave above the note. */
  function KeyPitch(n: Note): int {
    if n.name == NoteName(C, Flat) then NoteMidi(n) + 12 else NoteMidi(n)
  }

  /** The key looked up for a note is the scientific-pitch name of KeyPitch,
      except for E# and B#: they keep their spelling, and the table has no
      entry for such a key. */
  lemma LookupKeyNames(n: Note)
    ensures n.name == NoteName(E, Sharp) || n.name == NoteName(B, Sharp) ==> LookupKey(n) !in NoteToTabPositions
    ensures n.name != NoteName(E, Sharp) && n.name != NoteName(B, Sharp) ==> LookupKey(n) == PitchName(KeyPitch(n))
  {
    if n.name == NoteName(E, Sharp) || n.name == NoteName(B, Sharp) {
      SharpKeyNotInTable(Spell(n.name), n.octave);
    } else {
      RespelledKey(n);
      SpelledKey(Note(SharpSpelling(n.name), n.octave));
      RespelledMidi(n);
    }
  }

  /** The key of a note is the key of its respelling. Dafny knows this from the
      definitions; stating it apart keeps LookupKeyNames within the solver's
      budget. */
  lemma RespelledKey(n: Note)
    ensures LookupKey(n) == Spell(Note(SharpSpelling(n.name), n.octave).name) + IntToString(Note(SharpSpelling(n.name), n.octave).octave)
  {
  }

  /** The respelling sounds the pitch the key names. Stated apart, like
      RespelledKey, to keep LookupKeyNames within the solver's budget. */
  lemma RespelledMidi(n: Note)
    ensures NoteMidi(Note(SharpSpelling(n.name), n.octave)) == KeyPitch(n)
  {
  }

  /** A note spelled without a flat, other than E# and B#, has as key the
      scientific-pitch name of its pitch. */
  lemma SpelledKey(n: Note)
    requires n.name.accidental != Flat && n.name != NoteName(E, Sharp) && n.name != NoteName(B, Sharp)
    ensures Spell(n.name) + IntToString(n.octave) == PitchName(NoteMidi(n))
  {
    SpellingIndex(n.name);
    var pc, m := StepSemitone(n.name.step) + Alter(n.name.accidental), NoteMidi(n);
    assert m % 12 == pc && m / 12 - 1 == n.octave;
    SameName(pc, n.octave, m % 12, m / 12 - 1);
  }

  /** A position listed under the name of pitch m sounds m. */
  lemma PositionSounds(key: string, p: Position, m: int)
    requires 1 <= p.str <= 6
    requires key == PitchName(TablePitch(p)) && key == PitchName(m)
    ensures TablePitch(p) == m
  {
    if TablePitch(p) != m {
      PitchNameInjective(TablePitch(p), m);
    }
  }

  /** Every tablature note written for a chord note is a string and fret that
      sounds KeyPitch: the note itself, or for a C flat the B an octave above.
      E# and B# get no tablature notes at all. */
  lemma NoteEventsSound(n: Note)
    ensures forall e | e in NoteEvents(n) ::
      && e.TablatureNote? && (e.str == 5 || e.str == 6) && 0 <= e.fret <= 7
      && e.linkedNote == SharpSpelling(n.name)
      && TablePitch(Position(e.str, e.fret)) == KeyPitch(n)
    ensures n.name == NoteName(E, Sharp) || n.name == NoteName(B, Sharp) ==> NoteEvents(n) == []
  {
    var key, ps := LookupKey(n), NoteNameToGuitarTab(LookupKey(n));
    NoteEventsShape(n);
    LookupKeyNames(n);
    if n.name != NoteName(E, Sharp) && n.name != NoteName(B, Sharp) {
      GuitarTabPositions(key);
      forall k | 0 <= k < |ps|
        ensures TablePitch(Position(ps[k].str, ps[k].fret)) == KeyPitch(n)
      {
        assert ps[k] in ps;
        PositionSounds(key, ps[k], KeyPitch(n));
        assert Position(ps[k].str, ps[k].fret) == ps[k];
      }
    }
  }

  /** The per-entry lists of two parts of a sequence, side by side. */
  lemma StaffEventListsAppend(a: seq<Entry>, b: seq<Entry>)
    ensures StaffEventLists(a + b) == StaffEventLists(a) + StaffEventLists(b)
  {
    var l, r := StaffEventLists(a + b), StaffEventLists(a) + StaffEventLists(b);
    forall i | 0 <= i < |l|
      ensures l[i] == r[i]
    {
      var e := (a + b)[i];
      assert l[i] == EntryEvents(e);
      if i < |a| {
        assert e == a[i];
        assert r[i] == StaffEventLists(a)[i];
      } else {
        assert e == b[i - |a|];
        assert r[i] == StaffEventLists(b)[i - |a|];
      }
    }
  }

  /** Exporting two parts of a sequence one after the other adds the events of
      the first part, then those of the second. */
  lemma StaffEventsAppend(a: seq<Entry>, b: seq<Entry>)
    ensures StaffEvents(a + b) == StaffEvents(a) + StaffEvents(b)
  {
    StaffEventListsAppend(a, b);
    FlattenAppend(StaffEventLists(a), StaffEventLists(b));
  }

  /** An empty list contributes nothing to the join. */
  lemma FlattenSkipEmpty<T>(a: seq<seq<T>>, b: seq<seq<T>>)
    ensures Flatten(a + [[]] + b) == Flatten(a + b)
  {
    FlattenAppend(a + [[]], b);
    FlattenAppend(a, [[]]);
    FlattenAppend(a, b);
    assert Flatten<T>([[]]) == [];
  }

  /** An entry that is not a chord leaves the staff as if it were not there. */
  lemma NonChordSkipped(a: seq<Entry>, b: seq<Entry>)
    ensures StaffEvents(a + [Other] + b) == StaffEvents(a + b)
  {
    var la, lb := StaffEventLists(a), StaffEventLists(b);
    StaffEventListsAppend(a + [Other], b);
    StaffEventListsAppend(a, [Other]);
    StaffEventListsAppend(a, b);
    assert StaffEventLists([Other]) == [[]];
    FlattenSkipEmpty(la, lb);
  }

  /** An event is on the staff exactly when some chord of the sequence adds it. */
  lemma StaffEventsMembers(chordSequence: seq<Entry>, e: StaffElement)
    ensures e in StaffEvents(chordSequence) <==>
      exists i | 0 <= i < |chordSequence| ::
        chordSequence[i].Chord? && e in ChordEvents(chordSequence[i].notes)
  {
    var lists := StaffEventLists(chordSequence);
    FlattenMembers(lists, e);
    if e in StaffEvents(chordSequence) {
      var i :| 0 <= i < |lists| && e in lists[i];
      assert lists[i] == EntryEvents(chordSequence[i]);
    }
    if exists i | 0 <= i < |chordSequence| :: chordSequence[i].Chord? && e in ChordEvents(chordSequence[i].notes) {
      var i :| 0 <= i < |chordSequence| && chordSequence[i].Chord? && e in ChordEvents(chordSequence[i].notes);
      assert lists[i] == EntryEvents(chordSequence[i]);
    }
  }

  /** An event belongs to a chord exactly when some note of the chord adds it. */
  lemma ChordEventsMembers(notes: seq<Note>, e: StaffElement)
    ensures e in ChordEvents(notes) <==> exists j | 0 <= j < |notes| :: e in NoteEvents(notes[j])
  {
    if e in ChordEvents(notes) {
      ChordEventFromNote(notes, e);
    } else if exists j | 0 <= j < |notes| :: e in NoteEvents(notes[j]) {
      var j :| 0 <= j < |notes| && e in NoteEvents(notes[j]);
      NoteEventInChord(notes, j, e);
    }
  }

  /** Every event of a chord comes from one of its notes. */
  lemma ChordEventFromNote(notes: seq<Note>, e: StaffElement)
    requires e in ChordEvents(notes)
    ensures exists j | 0 <= j < |notes| :: e in NoteEvents(notes[j])
  {
    var lists := ChordEventLists(notes);
    FlattenMembers(lists, e);
    var j :| 0 <= j < |lists| && e in lists[j];
    assert lists[j] == NoteEvents(notes[j]);
  }

  /** Every event of a note of a chord is among the chord's events. */
  lemma NoteEventInChord(notes: seq<Note>, j: int, e: StaffElement)
    requires 0 <= j < |notes| && e in NoteEvents(notes[j])
    ensures e in ChordEvents(notes)
  {
    var lists := ChordEventLists(notes);
    FlattenMembers(lists, e);
    assert lists[j] == NoteEvents(notes[j]);
  }

  /** Every event after the instrument is a tablature note at fret 0..7 on one of
      the two lowest strings that sounds a note of some chord of the sequence
      (for a C flat, the B an octave above) and is linked to that note's sharp
      spelling. */
  lemma StaffEventsSound(chordSequence: seq<Entry>, e: StaffElement)
    requires e in StaffEvents(chordSequence)
    ensures e.TablatureNote? && (e.str == 5 || e.str == 6) && 0 <= e.fret <= 7
    ensures exists i, j | 0 <= i < |chordSequence| && chordSequence[i].Chord? && 0 <= j < |chordSequence[i].notes| ::
      && e.linkedNote == SharpSpelling(chordSequence[i].notes[j].name)
      && TablePitch(Position(e.str, e.fret)) == KeyPitch(chordSequence[i].notes[j])
  {
    StaffEventsMembers(chordSequence, e);
    var i :| 0 <= i < |chordSequence| && chordSequence[i].Chord? && e in ChordEvents(chordSequence[i].notes);
    var notes := chordSequence[i].notes;
    ChordEventsMembers(notes, e);
    var j :| 0 <= j < |notes| && e in NoteEvents(notes[j]);
    NoteEventsSound(notes[j]);
  }

  /** Conversely, every position the table lists for the key of a note of a
      chord of the sequence is on the staff, linked to the note's sharp spelling. */
  lemma StaffEventsComplete(chordSequence: seq<Entry>, i: int, j: int, p: Position)
    requires 0 <= i < |chordSequence| && chordSequence[i].Chord? && 0 <= j < |chordSequence[i].notes|
    requires p in NoteNameToGuitarTab(LookupKey(chordSequence[i].notes[j]))
    ensures TablatureNote(p.fret, p.str, SharpSpelling(chordSequence[i].notes[j].name)) in StaffEvents(chordSequence)
  {
    var notes := chordSequence[i].notes;
    var n := notes[j];
    var ps := NoteNameToGuitarTab(LookupKey(n));
    var e := TablatureNote(p.fret, p.str, SharpSpelling(n.name));
    var k :| 0 <= k < |ps| && ps[k] == p;
    NoteEventsShape(n);
    assert NoteEvents(n)[k] == e;
    NoteEventInChord(notes, j, e);
    StaffEventsMembers(chordSequence, e);
  }

  /** The strings and frets of the tablature notes among some staff events, in order. */
  function EventPositions(es: seq<StaffElement>): seq<Position> {
    if es == [] then []
    else
      var last := es[|es| - 1];
      EventPositions(es[..|es| - 1]) + if last.TablatureNote? then [Position(last.str, last.fret)] else []
  }

  /** The keys map_to_guitar_tab looks up for the notes of a chord, in order. */
  function ChordKeys(notes: seq<Note>): (keys: seq<string>)
    ensures |keys| == |notes|
  {
    if notes == [] then [] else ChordKeys(notes[..|notes| - 1]) + [LookupKey(notes[|notes| - 1])]
  }

  lemma {:induction false} EventPositionsAppend(a: seq<StaffElement>, b: seq<StaffElement>)
    ensures EventPositions(a + b) == EventPositions(a) + EventPositions(b)
    decreases |b|
  {
    if b == [] {
      assert a + b == a;
    } else {
      var b' := b[..|b| - 1];
      assert (a + b)[..|a + b| - 1] == a + b';
      EventPositionsAppend(a, b');
    }
  }

  /** The tablature notes made from a list of positions give that list back. */
  lemma {:induction false} EventsForPositions(positions: seq<Position>, linked: NoteName)
    ensures EventPositions(EventsFor(positions, linked)) == positions
  {
    if positions != [] {
      var init, last := positions[..|positions| - 1], positions[|positions| - 1];
      EventsForPositions(init, linked);
      EventPositionsAppend(EventsFor(init, linked), [TablatureNote(last.fret, last.str, linked)]);
      assert [TablatureNote(last.fret, last.str, linked)][..0] == [];
    }
  }

  /** A chord's events are those of all its notes but the last, then the last's. */
  lemma ChordEventsStep(notes: seq<Note>)
    requires notes != []
    ensures ChordEvents(notes) == ChordEvents(notes[..|notes| - 1]) + NoteEvents(notes[|notes| - 1])
  {
    var lists := ChordEventLists(notes);
    assert lists[..|notes| - 1] == ChordEventLists(notes[..|notes| - 1]);
  }

  /** The strings and frets written for a chord are exactly what chord_to_tab
      returns for the chord's keys, in the same order. */
  lemma {:induction false} ChordEventsPositions(notes: seq<Note>)
    ensures EventPositions(ChordEvents(notes)) == ChordPositions(ChordKeys(notes))
  {
    if notes == [] {
      assert ChordKeys(notes) == [];
    } else {
      var init, last := notes[..|notes| - 1], notes[|notes| - 1];
      var keys := ChordKeys(notes);
      ChordEventsPositions(init);
      ChordEventsStep(notes);
      EventPositionsAppend(ChordEvents(init), NoteEvents(last));
      EventsForPositions(NoteNameToGuitarTab(LookupKey(last)), SharpSpelling(last.name));
      assert keys[..|keys| - 1] == ChordKeys(init);
      LookupsAgree(LookupKey(last));
    }
  }

  /** Joining lists that are all empty gives the empty list. */
  lemma {:induction false} FlattenEmpty<T>(xss: seq<seq<T>>)
    requires forall i | 0 <= i < |xss| :: xss[i] == []
    ensures Flatten(xss) == []
  {
    if xss != [] {
      var init := xss[..|xss| - 1];
      assert forall i | 0 <= i < |init| :: init[i] == xss[i];
      FlattenEmpty(init);
    }
  }

  /** A chord none of whose notes has a key in the table adds nothing. */
  lemma NoPositionsChord(notes: seq<Note>)
    requires forall j | 0 <= j < |notes| :: LookupKey(notes[j]) !in NoteToTabPositions
    ensures ChordEvents(notes) == []
  {
    var lists := ChordEventLists(notes);
    forall j | 0 <= j < |lists|
      ensures lists[j] == []
    {
      assert NoteNameToGuitarTab(LookupKey(notes[j])) == [];
    }
    FlattenEmpty(lists);
  }

  /** A sequence in which no note of any chord has a key in the table, the empty
      sequence among them, adds nothing: the staff holds only the instrument. */
  lemma NoPositionsNoEvents(chordSequence: seq<Entry>)
    requires forall i, j | 0 <= i < |chordSequence| && chordSequence[i].Chord? && 0 <= j < |chordSequence[i].notes| ::
      LookupKey(chordSequence[i].notes[j]) !in NoteToTabPositions
    ensures StaffEvents(chordSequence) == []
  {
    var lists := StaffEventLists(chordSequence);
    forall i | 0 <= i < |lists|
      ensures lists[i] == []
    {
      if chordSequence[i].Chord? {
        NoPositionsChord(chordSequence[i].notes);
      }
    }
    FlattenEmpty(lists);
  }

  /** Two spellings of the same pitch, neither E#, B# nor C flat, are looked up
      under the same key, so D flat 4 and C sharp 4 get the same positions. */
  lemma EnharmonicSameKey(n: Note, n': Note)
    requires NoteMidi(n) == NoteMidi(n')
    requires n.name !in {NoteName(E, Sharp), NoteName(B, Sharp), NoteName(C, Flat)}
    requires n'.name !in {NoteName(E, Sharp), NoteName(B, Sharp), NoteName(C, Flat)}
    ensures LookupKey(n) == LookupKey(n')
  {
    LookupKeyNames(n);
    LookupKeyNames(n');
  }

  /** A note whose octave is not 2 gets no tablature: the key carries the note's
      own octave and every key of the table is in octave 2. */
  lemma OffOctaveNoEvents(n: Note)
    requires n.octave != 2
    ensures NoteEvents(n) == []
  {
    KeyOffOctave(Spell(SharpSpelling(n.name)), n.octave);
  }

  /** A C flat in octave 3 sounds MIDI 47, the B2 the table holds, but its key
      is "B3", which the table lacks, so the note gets no tablature at all. */
  lemma CFlatKeyOctaveHigh()
    ensures NoteMidi(Note(NoteName(C, Flat), 3)) == 47
    ensures LookupKey(Note(NoteName(C, Flat), 3)) == "B3"
    ensures NoteEvents(Note(NoteName(C, Flat), 3)) == []
    ensures NoteNameToGuitarTab("B2") != [] && PitchName(47) == "B2"
  {
    var n := Note(NoteName(C, Flat), 3);
    assert IntToString(3) == "3";
    assert LookupKey(n) == "B3";
    assert "B2" in NoteToTabPositions;
    SameName(11, 2, 47 % 12, 47 / 12 - 1);
    assert NoteNames[11] + IntToString(2) == "B2" by {
      assert IntToString(2) == "2";
    }
  }

  /** The lookup key with the octave taken from the respelled pitch, as the key
      of a note is evidently meant to be: a C flat is the B of the octave below. */
  function IntendedLookupKey(n: Note): (key: string)
    ensures n.name != NoteName(C, Flat) ==> key == LookupKey(n)
  {
    var octave := if n.name == NoteName(C, Flat) then n.octave - 1 else n.octave;
    Spell(SharpSpelling(n.name)) + IntToString(octave)
  }

  /** The corrected key of every note other than E# and B# is the
      scientific-pitch name of the pitch the note sounds. */
  lemma IntendedLookupKeyNames(n: Note)
    requires n.name != NoteName(E, Sharp) && n.name != NoteName(B, Sharp)
    ensures IntendedLookupKey(n) == PitchName(NoteMidi(n))
  {
    var octave := if n.name == NoteName(C, Flat) then n.octave - 1 else n.octave;
    var respelled := Note(SharpSpelling(n.name), octave);
    SpelledKey(respelled);
    assert NoteMidi(respelled) == NoteMidi(n);
  }
}
