# Guitar tablature core of pySpec, in Dafny

pySpec turns a recording into guitar tablature. This project models the part of
it that has decision logic:

- the **chord detector** (the chord-detection loop of `spec.py`). Each time
  slice of a chromagram becomes the ascending list of the pitch classes whose
  intensity is strictly above 30 percent.
- the **fretboard model** of `tab_utils.py`. It covers:
  - the hand-written `NOTE_TO_TAB_POSITIONS` table;
  - `standard_tuning` and `note_names`;
  - the two table lookups `note_to_tab` and `note_name_to_guitar_tab`;
  - `chord_to_tab`;
  - the (string, fret) to note-name arithmetic of `guitar_tab_to_note`.
- the **tablature assembler** `map_to_guitar_tab` of `export_to_tab.py`. It:
  - starts a staff with the guitar;
  - skips sequence entries that are not chords;
  - respells flat names as sharps;
  - builds the lookup key from the respelled name and the note's own octave;
  - appends one tablature note per position the table returns, in
    chord, note and position order.

How the pieces are modelled:

- **Modules.** There is one module per source file: `ChordDetector`,
  `TabUtils` and `ExportToTab`. The module `Numerals` models Python's
  `str(int)`, which builds every key. Its parser `ParseInt`, like
  `TabUtils.KeyMidi`, models nothing in the source. Both only serve to prove
  `TabUtils.PitchNameInjective`: two different pitches never share a key.
- **Pure code.** Lookups and arithmetic are functions.
- **Loops.** The loops of `chord_to_tab`, `map_to_guitar_tab` and the chord
  detector are methods. Each is proved equal to a function that specifies it.
- **The staff.** The music21 stream the assembler grows in place is a class,
  `Staff`, whose `elements` field its methods reassign.

## Model

| member | source | states |
|---|---|---|
| Numerals.IntToString | tab_utils.py:69 | `str` of an integer: non-empty, a leading '-' exactly for negative values, digits otherwise |
| TabUtils.TuningShape | tab_utils.py:16 | the tuning has six open-string pitches, strictly increasing from the low E |
| TabUtils.NoteNamesShape | tab_utils.py:19 | the twelve note names are pairwise distinct |
| TabUtils.PitchNameInjective | tab_utils.py:2-12 | two different MIDI numbers never get the same name-plus-octave key |
| TabUtils.EntryE2 | tab_utils.py:3 | "E2" is listed at string 6 fret 0, which sounds MIDI 40 (E2) under the table's string numbering |
| TabUtils.EntryF2 | tab_utils.py:4 | "F2" is listed at a position sounding MIDI 41, string 6 |
| TabUtils.EntryFSharp2 | tab_utils.py:5 | "F#2" is listed at a position sounding MIDI 42, string 6 |
| TabUtils.EntryG2 | tab_utils.py:6 | "G2" is listed at a position sounding MIDI 43, string 6 |
| TabUtils.EntryGSharp2 | tab_utils.py:7 | "G#2" is listed at a position sounding MIDI 44, string 6 |
| TabUtils.EntryA2 | tab_utils.py:8 | both "A2" positions sound MIDI 45, string 6 listed before string 5 |
| TabUtils.EntryASharp2 | tab_utils.py:9 | both "A#2" positions sound MIDI 46, string 6 listed before string 5 |
| TabUtils.EntryB2 | tab_utils.py:10 | both "B2" positions sound MIDI 47, string 6 listed before string 5 |
| TabUtils.EntryFacts | tab_utils.py:2-12 | every entry is non-empty, uses only strings 5 and 6 at frets 0..7, lists string 6 first, and each position sounds the pitch its key names |
| TabUtils.TableFacts | tab_utils.py:2-12 | the same for all entries of the table at once |
| TabUtils.EntryMember | tab_utils.py:2-12 | any listed position is on string 5 or 6 at fret 0..7 and its key names the pitch it sounds |
| TabUtils.NoteNameToGuitarTab | tab_utils.py:35-42 | the table's list for a key it holds and the empty list (not an error) for any other key; non-empty exactly for the table's keys |
| TabUtils.GuitarTabPositions | tab_utils.py:35-42 | every position returned is on string 5 or 6 at fret 0..7, string 6 first, and sounds the pitch the key names |
| TabUtils.NoteToTab | tab_utils.py:22-24 | `.get(note_name, [])`: the table's list for a key it holds and the empty list for any other key; non-empty exactly for the table's keys |
| TabUtils.KeyOffOctave | tab_utils.py:2-12 | every key of the table is in octave 2: a name followed by any other octave is never a key |
| TabUtils.LookupsAgree | tab_utils.py:22-24 | note_to_tab and note_name_to_guitar_tab return the same list for every input |
| TabUtils.ChordToTab | tab_utils.py:27-32 | the loop's `extend`s produce the positions of each note in chord order |
| TabUtils.ChordPositionsAppend | tab_utils.py:27-32 | the positions of a concatenated chord are the concatenation of the positions of the parts |
| TabUtils.ChordPositionsLength | tab_utils.py:27-32 | the length is the sum of the per-note list lengths, and an empty chord gives [] |
| TabUtils.ChordPositionsMembers | tab_utils.py:27-32 | a position is in the result exactly when it is in note_to_tab of one of the chord's notes |
| TabUtils.GuitarTabToNote | tab_utils.py:45-69 | string and fret come back unchanged, and the name is that of the pitch one octave above `standard_tuning[string - 1] + fret` |
| TabUtils.GuitarTabToNoteParts | tab_utils.py:57-67 | the name index `(midi - 12) % 12` is a valid index equal to `midi % 12`, the octave `(midi - 12) // 12 + 1` equals `midi // 12`, and the name is note_names at one followed by the other |
| TabUtils.GuitarTabToNoteStringOne | tab_utils.py:67 | (1, 0), the low E (MIDI 40), is named "E3" |
| TabUtils.GuitarTabToNoteStringSix | tab_utils.py:57 | (6, 0) is named "E5", although the table lists (6, 0) under "E2" |
| TabUtils.MirroredStringDiffers | tab_utils.py:57 | on every string and fret, the pitch named as written differs from the pitch the table's numbering gives |
| TabUtils.AsWrittenDisagrees | tab_utils.py:57-69 | on every string and fret, the name as written differs from the corrected name |
| TabUtils.GuitarTabToNoteMissesTable | tab_utils.py:57-69 | for every position the table lists, the name as written is NOT the key it is listed under |
| TabUtils.IntendedTabToNote | tab_utils.py:57-69 | corrected conversion: string and fret unchanged, and the name is that of the pitch the position sounds under the table's numbering |
| TabUtils.IntendedRoundTrip | tab_utils.py:2-12 | the corrected conversion maps every listed position back to the key that lists it |
| ExportToTab.Spell | export_to_tab.py:26-27 | a spelled name starts with its letter and contains '-' exactly when it is flat |
| ExportToTab.Enharmonic | export_to_tab.py:28 | a flat's enharmonic has no flat, has another letter, is never E# or B#, and sounds the same pitch; for C flat that pitch is counted in the octave above |
| ExportToTab.SharpSpelling | export_to_tab.py:26-28 | names without '-' are kept; the result never contains '-' and keeps the pitch class |
| ExportToTab.Staff.constructor | export_to_tab.py:16 | a new stream is empty |
| ExportToTab.Staff.InsertAtStart | export_to_tab.py:17 | inserting at offset 0 puts the element ahead of all others |
| ExportToTab.Staff.Append | export_to_tab.py:46 | appending puts the element after all others |
| ExportToTab.AppendTabNotes | export_to_tab.py:36-46 | appends one tablature note per position, in order, with the position's fret and string and the respelled name, and removes nothing |
| ExportToTab.AppendChord | export_to_tab.py:23-46 | appends the events of the chord's notes, in note order, after what the staff held |
| ExportToTab.MapToGuitarTab | export_to_tab.py:9-49 | a new staff holding the guitar, then the events of every chord in sequence order |
| ExportToTab.EventsForAt | export_to_tab.py:36-46 | exactly one tablature note per position, and the k-th copies the k-th position's fret and string |
| ExportToTab.EventsForPositions | export_to_tab.py:36-46 | reading back string and fret from the tablature notes of a position list gives the list |
| ExportToTab.NoteEventsShape | export_to_tab.py:31-46 | a note's events correspond one to one to the positions listed for its key: strings 5 or 6, frets 0..7, string 6 first, all linked to the bare respelled name |
| ExportToTab.LookupKey | export_to_tab.py:26-31 | the key is the respelled name, which holds no '-', followed by `str` of the note's own octave; what pitch it names is stated by LookupKeyNames |
| ExportToTab.OffOctaveNoEvents | export_to_tab.py:31-36 | a note whose octave is not 2 gets no tablature notes |
| ExportToTab.SharpKeyNotInTable | export_to_tab.py:31-33 | a key spelled E# or B# is never in the table |
| ExportToTab.LookupKeyNames | export_to_tab.py:26-33 | the key is the name of the note's pitch; for C flat it is the B an octave above; E# and B# are never found |
| ExportToTab.EnharmonicSameKey | export_to_tab.py:26-33 | two spellings of the same pitch (such as D flat 4 and C sharp 4) are looked up under the same key, outside E#, B# and C flat |
| ExportToTab.NoteEventsSound | export_to_tab.py:26-46 | every event of a note is a tablature note on string 5 or 6 at fret 0..7, linked to the sharp spelling, sounding the note's pitch (for C flat the B above); E# and B# add nothing |
| ExportToTab.StaffEventsAppend | export_to_tab.py:20-46 | the events of a concatenated sequence are the events of the first part followed by those of the second |
| ExportToTab.NonChordSkipped | export_to_tab.py:22 | an entry that is not a chord changes nothing |
| ExportToTab.StaffEventsMembers | export_to_tab.py:20-23 | an event is on the staff exactly when some chord of the sequence adds it |
| ExportToTab.ChordEventsMembers | export_to_tab.py:23-46 | an event belongs to a chord exactly when one of its notes adds it |
| ExportToTab.StaffEventsSound | export_to_tab.py:20-46 | everything after the guitar is a tablature note on string 5 or 6 at fret 0..7 that sounds some chord note and is linked to its sharp spelling |
| ExportToTab.StaffEventsComplete | export_to_tab.py:20-46 | every position the table lists for the key of any chord note is on the staff |
| ExportToTab.ChordEventsPositions | export_to_tab.py:23-36 | the strings and frets written for a chord are, in order, exactly what chord_to_tab returns for the chord's keys |
| ExportToTab.NoPositionsChord | export_to_tab.py:33-36 | a chord none of whose keys is in the table adds nothing |
| ExportToTab.NoPositionsNoEvents | export_to_tab.py:16-49 | an empty sequence, or one where no note's key is in the table, leaves only the guitar on the staff |
| ExportToTab.CFlatKeyOctaveHigh | export_to_tab.py:28-31 | C flat 3 sounds B2, which the table holds, but is looked up as "B3" and gets no tablature |
| ExportToTab.IntendedLookupKey | export_to_tab.py:28-31 | corrected key: equal to the written key for every name but C flat |
| ExportToTab.IntendedLookupKeyNames | export_to_tab.py:28-31 | the corrected key of every note other than E# and B# names exactly the pitch the note sounds |
| ChordDetector.Detected | spec.py:78-82 | at most one pitch class per intensity, each a valid index into the slice, strictly ascending |
| ChordDetector.DetectChords | spec.py:74-85 | one chord per time slice, in slice order, each the detected pitch classes of its slice |
| ChordDetector.DetectedMembers | spec.py:79-82 | a pitch class is in the chord exactly when it indexes the slice and its intensity is strictly above 30 |
| ChordDetector.QuietSliceEmpty | spec.py:78-84 | the chord is empty exactly when no intensity exceeds 30 |
| ChordDetector.ThresholdBoundary | spec.py:81 | an intensity of 30 is excluded and 31 included |

## Left out

- Audio loading, CSV input, noise reduction, HPSS and the chromagram are left out. They are library numerics and I/O.
- MusicXML writing, logging and `exit()` are left out.
- The float step `int(round(x * 100))` is left out. The detector takes slices already scaled to whole percentages.
- music21 is abstracted:
  - a chord is a list of notes;
  - a note is a name and an octave;
  - a name has a letter and at most one sharp or flat;
  - the stream is a list of elements.
- Stream offsets are not modelled. Insertion at offset 0 is placed ahead of everything and `append` after everything.
- A tablature note is built in one step. The source sets its fret, string and linked note one field at a time.
- Double flats, double sharps and music21's other spelling rules are not modelled. `getEnharmonic` is a fixed single-flat table, and only its `.name` is used, as in the source.
- spec.py:94 passes the detector's chords to `map_to_guitar_tab`. This composition is not modelled: the detector's result is a list of pitch-class lists, and a note without an octave is not modelled. Such a note's key is the name followed by `str(None)` or by whatever octave music21 gives it. Every key of the table is in octave 2 (TabUtils.KeyOffOctave, ExportToTab.OffOctaveNoEvents). So unless music21 puts the notes in octave 2, the source's pipeline writes a staff that holds only the guitar.
- TabUtils.GuitarTabToNote requires strings 1..6. Python's negative indexing for string 0 or below is not modelled. `int(string)` on a non-integer is not modelled either.
- The table is the eight entries the source writes out. No table is generated over a wider range. A key outside the table gives an empty list, as the code does. An absent key is not treated as an error.
- The staff's loops are split one method per nesting level:
  - MapToGuitarTab loops over the chords;
  - AppendChord loops over the notes;
  - AppendTabNotes loops over the positions.

  Together they run the same nested loop as map_to_guitar_tab.
- Chords are ordered lists, as the code iterates them. They are not unordered sets.
- The assembler follows the code as written, including the C flat octave below. The corrected key is modelled beside it.

## Findings

| source | as written | input that shows it | evidently intended | confidence | as-written member | corrected member |
|---|---|---|---|---|---|---|
| tab_utils.py:57 | `standard_tuning[string - 1]` makes string 1 the low E, while the table numbers the low E string 6 | `guitar_tab_to_note(6, 0)` names "E5", but the table lists (6, 0) under "E2" | `standard_tuning[6 - string]` | high; not executed | TabUtils.GuitarTabToNoteMissesTable | TabUtils.IntendedRoundTrip |
| tab_utils.py:67 | the octave `(midi - 12) // 12 + 1` is one more than the numbering in which MIDI 12 is C0 | `guitar_tab_to_note(1, 0)`: MIDI 40 (E2) is named "E3" | `(midi - 12) // 12` | high; not executed | TabUtils.GuitarTabToNoteStringOne | TabUtils.IntendedTabToNote |
| export_to_tab.py:28-31 | a C flat is respelled B but keeps the C flat's octave, so the key names the B an octave above the note | C flat 3 (MIDI 47, B2, in the table) is looked up as "B3" and gets no tablature | the octave of the respelled pitch, one lower for C flat | medium; not executed | ExportToTab.CFlatKeyOctaveHigh | ExportToTab.IntendedLookupKeyNames |
