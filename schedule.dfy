/** The reminder logic shared by the two desktop reminder scripts (alertmodify.py and
    text_speech.py hold copies of it): turning a saved prescription into a schedule
    keyed by medicine name, finding the medicine due at the current minute, and the
    texts shown and spoken. Widgets, notifications, speech and the clock are not
    modelled; the current "HH:MM" is a parameter. */
module Schedule {
  import opened Common
  import opened Strings

  // ---------------------------------------------------------------------------
  // The saved prescription, as json.load returns it. A None field is a key that is
  // absent from the file.

  /** One element of a medicine's "Timings" list: a string, or a JSON value of another
      type (the extraction prompt asks for integers), on which `.strip()` raises. */
  datatype TimingValue = Text(s: string) | NonText

  datatype MedicineRecord = MedicineRecord(
    medicine: Option<string>,
    dosage: Option<string>,
    timings: Option<seq<TimingValue>>)

  datatype PatientRecord = PatientRecord(name: Option<string>)

  datatype Prescription = Prescription(
    patient: Option<PatientRecord>,
    medicines: Option<seq<MedicineRecord>>)

  const UnknownMedicine: string := "Unknown Medicine"
  const UnknownDosage: string := "Unknown Dosage"
  const UnknownPatient: string := "Unknown Patient"

  function NameOf(m: MedicineRecord): string {
    m.medicine.GetOr(UnknownMedicine)
  }

  function DosageOf(m: MedicineRecord): string {
    m.dosage.GetOr(UnknownDosage)
  }

  function TimingsOf(m: MedicineRecord): seq<TimingValue> {
    m.timings.GetOr([])
  }

  function MedicinesOf(p: Prescription): seq<MedicineRecord> {
    p.medicines.GetOr([])
  }

  /** `data.get("Patient", {}).get("Name", "Unknown Patient")` */
  function PatientNameOf(p: Prescription): string {
    match p.patient
    case None => UnknownPatient
    case Some(patient) => patient.name.GetOr(UnknownPatient)
  }

  // ---------------------------------------------------------------------------
  // Timing normalisation

  /** `t.strip()`; None when t is not a string. */
  function StripTiming(t: TimingValue): Option<string> {
    match t
    case Text(s) => Some(Strip(s))
    case NonText => None
  }

  /** A stripped timing without ':' is an hour, written `f"{int(t):02d}:00"`; None
      when int() raises. A timing with ':' is kept as it is. */
  function FormatStripped(t: string): Option<string> {
    if ':' !in t then
      match ParseInt(t)
      case Some(n) => Some(Format02d(n) + ":00")
      case None => None
    else Some(t)
  }

  function NormaliseTiming(t: TimingValue): Option<string> {
    match StripTiming(t)
    case None => None
    case Some(u) => FormatStripped(u)
  }

  /** An hour written alone, with any surrounding whitespace, becomes that hour
      zero-padded with ":00" ("8" becomes "08:00"). */
  lemma HourOnlyTiming(s: string, h: nat)
    requires Strip(s) == NatToDecimal(h)
    ensures NormaliseTiming(Text(s)) == Some(Format02d(h) + ":00")
  {
    ParseIntOfDecimal(h);
    assert ':' !in NatToDecimal(h) by {
      var d := NatToDecimal(h);
      assert forall k :: 0 <= k < |d| ==> IsDigit(d[k]);
    }
  }

  /** A timing containing ':' is only stripped. */
  lemma ColonTimingKept(s: string)
    requires ':' in s
    ensures NormaliseTiming(Text(s)) == Some(Strip(s))
  {
    StripKeeps(s, ':');
  }

  /** An hour-only timing's result carries, before its ":00", a numeral of the same
      value as the text it came from. */
  lemma NormalisedHourReadsBack(s: string, r: string)
    requires ':' !in s && NormaliseTiming(Text(s)) == Some(r)
    ensures |r| >= 5 && r[|r| - 3..] == ":00"
    ensures ParseInt(r[..|r| - 3]) == ParseInt(Strip(s))
  {
    StripKeeps(s, ':');
    var n := ParseInt(Strip(s)).value;
    ParseIntOfFormat02d(n);
    assert r == Format02d(n) + ":00";
    assert r[..|r| - 3] == Format02d(n);
  }

  /** `datetime.now().strftime("%H:%M")` for a time of day. */
  function ClockText(hour: nat, minute: nat): string
    requires hour < 24 && minute < 60
  {
    Format02d(hour) + ":" + Format02d(minute)
  }

  /** An hour-only timing matches the clock exactly on that hour. */
  lemma HourTimingMatchesClock(s: string, h: nat)
    requires h < 24 && Strip(s) == NatToDecimal(h)
    ensures NormaliseTiming(Text(s)) == Some(ClockText(h, 0))
  {
    HourOnlyTiming(s, h);
    assert NatToDecimal(0) == "0" by {
      assert NatToDecimal(0) == [DigitChar(0)];
    }
    assert ClockText(h, 0) == Format02d(h) + ":00";
  }

  /** The list built by the loop over the stripped timings; None when any element
      fails. */
  function FormattedTimings(ts: seq<TimingValue>): Option<seq<string>> {
    MapAll(NormaliseTiming, ts)
  }

  /** The strip comprehension, then the formatting loop, of the loader. */
  method FormatTimings(timings: seq<TimingValue>) returns (formatted: Option<seq<string>>)
    ensures formatted == FormattedTimings(timings)
  {
    var stripped: seq<string> := [];
    var i := 0;
    while i < |timings|
      invariant 0 <= i <= |timings| && |stripped| == i
      invariant forall k :: 0 <= k < i ==> StripTiming(timings[k]) == Some(stripped[k])
    {
      match timings[i]
      case NonText =>
        MapAllPointwise(NormaliseTiming, timings);
        assert NormaliseTiming(timings[i]).None?;
        return None;
      case Text(s) =>
        stripped := stripped + [Strip(s)];
      i := i + 1;
    }
    var result: seq<string> := [];
    for j := 0 to |stripped|
      invariant MapAll(FormatStripped, stripped[..j]) == Some(result)
    {
      assert stripped[..j + 1][..j] == stripped[..j];
      var t := stripped[j];
      if ':' !in t {
        match ParseInt(t)
        case None =>
          MapAllPointwise(FormatStripped, stripped);
          assert FormatStripped(stripped[j]).None?;
          MapAllAgree(NormaliseTiming, timings, FormatStripped, stripped);
          return None;
        case Some(n) =>
          result := result + [Format02d(n) + ":00"];
      } else {
        result := result + [t];
      }
    }
    assert stripped[..|stripped|] == stripped;
    MapAllAgree(NormaliseTiming, timings, FormatStripped, stripped);
    formatted := Some(result);
  }

  // ---------------------------------------------------------------------------
  // The schedule: an insertion-ordered dict from medicine name to dosage and timings

  datatype ScheduleEntry = ScheduleEntry(medicine: string, dosage: string, timings: seq<string>)

  /** The entries in dict order, one per key. */
  type MedicineSchedule = seq<ScheduleEntry>

  /** The schedule entry for one medicine record; None when a timing fails. */
  function EntryOf(m: MedicineRecord): Option<ScheduleEntry> {
    match FormattedTimings(TimingsOf(m))
    case None => None
    case Some(ts) => Some(ScheduleEntry(NameOf(m), DosageOf(m), ts))
  }

  /** A record yields an entry exactly when all its timings normalise; the entry
      carries the record's name and dosage (or their defaults) and the normalised
      timings, one for one and in order. */
  lemma EntryFields(m: MedicineRecord)
    ensures EntryOf(m).Some? <==> forall j :: 0 <= j < |TimingsOf(m)| ==> NormaliseTiming(TimingsOf(m)[j]).Some?
    ensures EntryOf(m).Some? ==>
      var e := EntryOf(m).value;
      && e.medicine == NameOf(m) && e.dosage == DosageOf(m)
      && |e.timings| == |TimingsOf(m)|
      && forall j :: 0 <= j < |TimingsOf(m)| ==> NormaliseTiming(TimingsOf(m)[j]) == Some(e.timings[j])
  {
    MapAllPointwise(NormaliseTiming, TimingsOf(m));
  }

  /** The keys of a schedule, in order. */
  function Names(s: MedicineSchedule): (names: seq<string>)
    ensures |names| == |s| && forall i :: 0 <= i < |s| ==> names[i] == s[i].medicine
  {
    if s == [] then [] else [s[0].medicine] + Names(s[1..])
  }

  predicate DistinctNames(s: MedicineSchedule) {
    forall i, j :: 0 <= i < j < |s| ==> s[i].medicine != s[j].medicine
  }

  /** The value a dict holds under a key, or None when the key is absent. No loader
      reads the schedule this way; the lemmas use it to state what a store leaves
      under each key. */
  function Lookup(s: MedicineSchedule, name: string): Option<ScheduleEntry> {
    if s == [] then None
    else if s[0].medicine == name then Some(s[0])
    else Lookup(s[1..], name)
  }

  /** `schedule[e.medicine] = e` */
  function Put(s: MedicineSchedule, e: ScheduleEntry): MedicineSchedule {
    if s == [] then [e]
    else if s[0].medicine == e.medicine then [e] + s[1..]
    else [s[0]] + Put(s[1..], e)
  }

  /** Storing under a new key appends the key; storing under an existing key keeps
      the keys and their order. */
  lemma {:induction false} PutNames(s: MedicineSchedule, e: ScheduleEntry)
    ensures Names(Put(s, e)) == if e.medicine in Names(s) then Names(s) else Names(s) + [e.medicine]
  {
    if s != [] && s[0].medicine != e.medicine {
      PutNames(s[1..], e);
      assert Names(s) == [s[0].medicine] + Names(s[1..]);
      assert Names(Put(s, e)) == [s[0].medicine] + Names(Put(s[1..], e));
    }
  }

  /** After storing, the key maps to the new entry and every other key to what it
      mapped to before. */
  lemma {:induction false} PutLookup(s: MedicineSchedule, e: ScheduleEntry, name: string)
    ensures Lookup(Put(s, e), name) == if name == e.medicine then Some(e) else Lookup(s, name)
  {
    if s != [] && s[0].medicine != e.medicine {
      PutLookup(s[1..], e, name);
      assert Put(s, e)[1..] == Put(s[1..], e);
    }
  }

  /** Storing keeps the keys distinct. */
  lemma PutDistinct(s: MedicineSchedule, e: ScheduleEntry)
    requires DistinctNames(s)
    ensures DistinctNames(Put(s, e))
  {
    PutNames(s, e);
    var r := Put(s, e);
    forall i, j | 0 <= i < j < |r|
      ensures r[i].medicine != r[j].medicine
    {
      assert Names(r)[i] == r[i].medicine && Names(r)[j] == r[j].medicine;
      if j < |s| {
        assert Names(s)[i] == s[i].medicine && Names(s)[j] == s[j].medicine;
      } else {
        assert e.medicine !in Names(s);
        assert Names(s)[i] == s[i].medicine;
      }
    }
  }

  /** The entries stored one after the other into an empty dict. */
  function PutAll(es: seq<ScheduleEntry>): MedicineSchedule
    decreases |es|
  {
    if es == [] then [] else Put(PutAll(es[..|es| - 1]), es[|es| - 1])
  }

  /** The loop of the loader over "Medicines". It raises at the first record with a
      failing timing, and the loader's except clause then discards the partly built
      dict, so the result is None as soon as any record fails. */
  function ScheduleOf(meds: seq<MedicineRecord>): Option<MedicineSchedule> {
    match MapAll(EntryOf, meds)
    case None => None
    case Some(es) => Some(PutAll(es))
  }

  /** What either loader returns: the schedule, or {} when anything raised (the file
      is missing or not JSON, given here as None, or a timing fails). */
  function LoadedSchedule(file: Option<Prescription>): MedicineSchedule {
    match file
    case None => []
    case Some(p) => ScheduleOf(MedicinesOf(p)).GetOr([])
  }

  /** Building the schedule fails exactly when some record has a failing timing. */
  lemma ScheduleFailsIff(meds: seq<MedicineRecord>)
    ensures ScheduleOf(meds).None? <==> exists k :: 0 <= k < |meds| && EntryOf(meds[k]).None?
  {
    MapAllPointwise(EntryOf, meds);
  }

  /** A non-string timing anywhere in the file (the integers the extraction prompt
      asks for, say) leaves the reminder with an empty schedule. */
  lemma NonTextTimingEmptiesSchedule(p: Prescription, k: nat, j: nat)
    requires k < |MedicinesOf(p)|
    requires j < |TimingsOf(MedicinesOf(p)[k])| && TimingsOf(MedicinesOf(p)[k])[j] == NonText
    ensures LoadedSchedule(Some(p)) == []
  {
    EntryFields(MedicinesOf(p)[k]);
    assert NormaliseTiming(TimingsOf(MedicinesOf(p)[k])[j]).None?;
    ScheduleFailsIff(MedicinesOf(p));
  }

  /** Storing keeps keys distinct. */
  lemma {:induction false} PutAllDistinct(es: seq<ScheduleEntry>)
    ensures DistinctNames(PutAll(es))
    decreases |es|
  {
    if es != [] {
      PutAllDistinct(es[..|es| - 1]);
      PutDistinct(PutAll(es[..|es| - 1]), es[|es| - 1]);
    }
  }

  /** The schedule has one entry per medicine name. */
  lemma ScheduleKeysDistinct(meds: seq<MedicineRecord>)
    requires ScheduleOf(meds).Some?
    ensures DistinctNames(ScheduleOf(meds).value)
  {
    PutAllDistinct(MapAll(EntryOf, meds).value);
  }

  /** The value under a key is the last entry stored under it. */
  lemma {:induction false} PutAllLastWins(es: seq<ScheduleEntry>, i: nat)
    requires i < |es|
    requires forall k :: i < k < |es| ==> es[k].medicine != es[i].medicine
    ensures Lookup(PutAll(es), es[i].medicine) == Some(es[i])
    decreases |es|
  {
    var init := es[..|es| - 1];
    PutLookup(PutAll(init), es[|es| - 1], es[i].medicine);
    if i < |init| {
      assert init[i] == es[i];
      assert forall k :: i < k < |init| ==> init[k] == es[k];
      PutAllLastWins(init, i);
    }
  }

  /** A later record with the same name replaces the earlier one's dosage and
      timings: the entry under a name is that of the last record carrying it. */
  lemma LastRecordWins(meds: seq<MedicineRecord>, i: nat)
    requires ScheduleOf(meds).Some? && i < |meds|
    requires forall k :: i < k < |meds| ==> NameOf(meds[k]) != NameOf(meds[i])
    ensures EntryOf(meds[i]).Some?
    ensures Lookup(ScheduleOf(meds).value, NameOf(meds[i])) == EntryOf(meds[i])
  {
    MapAllPointwise(EntryOf, meds);
    var es := MapAll(EntryOf, meds).value;
    forall k | 0 <= k < |meds|
      ensures es[k].medicine == NameOf(meds[k])
    {
      EntryFields(meds[k]);
    }
    PutAllLastWins(es, i);
  }

  /** A record without "Medicine" is filed under "Unknown Medicine", and one without
      "Dosage" gets "Unknown Dosage". */
  lemma MissingFieldsDefault(meds: seq<MedicineRecord>, i: nat)
    requires ScheduleOf(meds).Some? && i < |meds|
    requires meds[i].medicine.None? && meds[i].dosage.None?
    requires forall k :: i < k < |meds| ==> NameOf(meds[k]) != UnknownMedicine
    ensures var e := Lookup(ScheduleOf(meds).value, UnknownMedicine);
      e.Some? && e.value.dosage == UnknownDosage
  {
    LastRecordWins(meds, i);
    EntryFields(meds[i]);
  }

  /** The names of the records in order, each kept at its first occurrence. */
  function FirstOccurrences(names: seq<string>): seq<string>
    decreases |names|
  {
    if names == [] then []
    else
      var seen := FirstOccurrences(names[..|names| - 1]);
      if names[|names| - 1] in seen then seen else seen + [names[|names| - 1]]
  }

  /** Storing keeps each key where it was first stored. */
  lemma {:induction false} PutAllOrder(es: seq<ScheduleEntry>)
    ensures Names(PutAll(es)) == FirstOccurrences(Names(es))
    decreases |es|
  {
    if es != [] {
      var init := es[..|es| - 1];
      PutAllOrder(init);
      PutNames(PutAll(init), es[|es| - 1]);
      assert Names(es)[..|es| - 1] == Names(init);
    }
  }

  function RecordNames(meds: seq<MedicineRecord>): (names: seq<string>)
    ensures |names| == |meds| && forall k :: 0 <= k < |meds| ==> names[k] == NameOf(meds[k])
  {
    seq(|meds|, k requires 0 <= k < |meds| => NameOf(meds[k]))
  }

  /** The schedule lists each medicine once, in the order in which its name first
      appears in the file. */
  lemma ScheduleOrder(meds: seq<MedicineRecord>)
    requires ScheduleOf(meds).Some?
    ensures Names(ScheduleOf(meds).value) == FirstOccurrences(RecordNames(meds))
  {
    MapAllPointwise(EntryOf, meds);
    var es := MapAll(EntryOf, meds).value;
    forall k | 0 <= k < |meds|
      ensures es[k].medicine == NameOf(meds[k])
    {
      EntryFields(meds[k]);
    }
    assert Names(es) == RecordNames(meds);
    PutAllOrder(es);
  }

  /** The loader's loop over the medicine records. */
  method BuildSchedule(meds: seq<MedicineRecord>) returns (schedule: Option<MedicineSchedule>)
    ensures schedule == ScheduleOf(meds)
  {
    var built: MedicineSchedule := [];
    ghost var stored: seq<ScheduleEntry> := [];
    for i := 0 to |meds|
      invariant MapAll(EntryOf, meds[..i]) == Some(stored)
      invariant built == PutAll(stored)
    {
      assert meds[..i + 1][..i] == meds[..i];
      var timings := FormatTimings(TimingsOf(meds[i]));
      if timings.None? {
        MapAllPointwise(EntryOf, meds);
        assert EntryOf(meds[i]).None?;
        return None;
      }
      var entry := ScheduleEntry(NameOf(meds[i]), DosageOf(meds[i]), timings.value);
      assert EntryOf(meds[i]) == Some(entry);
      assert (stored + [entry])[..|stored|] == stored;
      stored := stored + [entry];
      built := Put(built, entry);
    }
    assert meds[..|meds|] == meds;
    schedule := Some(built);
  }

  // ---------------------------------------------------------------------------
  // The periodic check

  /** The first entry, at or after from, whose timings contain now. */
  function FirstDueFrom(s: MedicineSchedule, now: string, from: nat): (r: Option<nat>)
    requires from <= |s|
    ensures r.Some? ==> from <= r.value < |s| && now in s[r.value].timings
    ensures r.Some? ==> forall j :: from <= j < r.value ==> now !in s[j].timings
    ensures r.None? ==> forall j :: from <= j < |s| ==> now !in s[j].timings
    decreases |s| - from
  {
    if from == |s| then None
    else if now in s[from].timings then Some(from)
    else FirstDueFrom(s, now, from + 1)
  }

  /** The entry a check fires for: the first, in schedule order, due now. */
  function FirstDue(s: MedicineSchedule, now: string): Option<nat> {
    FirstDueFrom(s, now, 0)
  }

  /** Entries after the first due one play no part in a check. */
  lemma FirstDueIgnoresLater(s: MedicineSchedule, later: MedicineSchedule, now: string)
    requires FirstDue(s, now).Some?
    ensures FirstDue(s + later, now) == FirstDue(s, now)
  {
    var i := FirstDue(s, now).value;
    var t := s + later;
    assert t[i] == s[i];
    assert forall j :: 0 <= j < i ==> t[j] == s[j];
    var r := FirstDue(t, now);
    assert r.Some?;
    assert !(r.value < i);
  }

  /** The loop of check_medicine_reminders: stop at the first entry due now. */
  method FindDue(schedule: MedicineSchedule, now: string) returns (due: Option<nat>)
    ensures due == FirstDue(schedule, now)
  {
    due := None;
    for i := 0 to |schedule|
      invariant forall j :: 0 <= j < i ==> now !in schedule[j].timings
    {
      if now in schedule[i].timings {
        due := Some(i);
        break;
      }
    }
  }

  // ---------------------------------------------------------------------------
  // The texts

  /** The reminder label before any medicine has been due. */
  const InitialReminderLabel: string := "Checking schedule..."

  /** One line of the schedule list: `f"{medicine} - {dosage} at {', '.join(timings)}"`. */
  function ListLine(e: ScheduleEntry): string {
    e.medicine + " - " + e.dosage + " at " + JoinWith(", ", e.timings)
  }

  /** The timings can be read back from a list line, past its fixed-length head,
      when none of them contains a comma. */
  lemma ListLineTimings(e: ScheduleEntry)
    requires e.timings != []
    requires forall i :: 0 <= i < |e.timings| ==> ',' !in e.timings[i]
    ensures var head := e.medicine + " - " + e.dosage + " at ";
      ListLine(e)[..|head|] == head && SplitOn(ListLine(e)[|head|..], ", ") == e.timings
  {
    var head := e.medicine + " - " + e.dosage + " at ";
    assert ListLine(e) == head + JoinWith(", ", e.timings);
    assert ListLine(e)[|head|..] == JoinWith(", ", e.timings);
    SplitOnJoin(e.timings, ", ");
  }

  /** The loop of update_medicine_list: one line per entry, in schedule order. */
  method RenderList(schedule: MedicineSchedule) returns (lines: seq<string>)
    ensures |lines| == |schedule|
    ensures forall i :: 0 <= i < |schedule| ==> lines[i] == ListLine(schedule[i])
  {
    lines := [];
    for i := 0 to |schedule|
      invariant |lines| == i
      invariant forall k :: 0 <= k < i ==> lines[k] == ListLine(schedule[k])
    {
      lines := lines + [ListLine(schedule[i])];
    }
  }

  /** The notification and label text of a due medicine. */
  function AlertMessage(medicine: string, dosage: string): string {
    "Time to take " + medicine + " - " + dosage
  }

  /** The text speak_reminder says. */
  function ReminderText(patient: string, medicine: string, dosage: string): string {
    "Hey " + patient + ", it's time to take your " + medicine + ", " + dosage
  }

  /** The spoken reminder greets the patient first, names the medicine after the fixed
      phrase, and ends with the dosage. */
  lemma ReminderTextFields(patient: string, medicine: string, dosage: string)
    ensures var r := ReminderText(patient, medicine, dosage);
      var m := 29 + |patient|;
      && r[..4 + |patient|] == "Hey " + patient
      && r[4 + |patient|..m] == ", it's time to take your "
      && m + |medicine| <= |r|
      && r[m..m + |medicine|] == medicine
      && r[|r| - |dosage| - 2..] == ", " + dosage
  {
  }

  /** Every alert greets the patient by the name it was given, and names the
      dosage last. */
  lemma AlertGreetsPatient(s: MedicineSchedule, now: string, patient: string)
    requires DueAlert(s, now, patient).Some?
    ensures var a := DueAlert(s, now, patient).value;
      && a.spoken[..4 + |patient|] == "Hey " + patient
      && a.spoken[|a.spoken| - |s[FirstDue(s, now).value].dosage| - 2..] == ", " + s[FirstDue(s, now).value].dosage
  {
    var i := FirstDue(s, now).value;
    ReminderTextFields(patient, s[i].medicine, s[i].dosage);
  }

  /** The information box shown after the reminder is spoken. */
  function PopupText(spoken: string): string {
    "\U{23F0} " + spoken + " \U{23F0}"
  }

  /** What one check produces when a medicine is due: the notification and label
      text, the spoken text, and the information box. */
  datatype Alert = Alert(message: string, spoken: string, popup: string)

  /** The outcome of one check: at most one alert, for the first due entry. */
  function DueAlert(s: MedicineSchedule, now: string, patient: string): (r: Option<Alert>)
    ensures r.Some? <==> exists i :: 0 <= i < |s| && now in s[i].timings
    ensures r.Some? ==>
      exists i :: 0 <= i < |s| && now in s[i].timings
        && (forall j :: 0 <= j < i ==> now !in s[j].timings)
        && r.value.message == AlertMessage(s[i].medicine, s[i].dosage)
        && r.value.spoken == ReminderText(patient, s[i].medicine, s[i].dosage)
        && r.value.popup == PopupText(r.value.spoken)
  {
    match FirstDue(s, now)
    case None => None
    case Some(i) =>
      var spoken := ReminderText(patient, s[i].medicine, s[i].dosage);
      Some(Alert(AlertMessage(s[i].medicine, s[i].dosage), spoken, PopupText(spoken)))
  }
}
