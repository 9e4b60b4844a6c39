/** The reminder window whose patient name is typed by the user (text_speech.py). The
    name lives in an entry field that starts as "Patient"; the prescription file is
    read only for its medicines. The file's contents are an input (None when it cannot
    be read or is not JSON); the clock is an input "HH:MM". */
module TextSpeech {
  import opened Common
  import opened Schedule

  const DefaultPatientName: string := "Patient"

  /** load_medicine_schedule: reads nothing but the medicines. */
  method LoadMedicineSchedule(file: Option<Prescription>) returns (schedule: MedicineSchedule)
    ensures schedule == LoadedSchedule(file)
    ensures DistinctNames(schedule)
  {
    match file
    case None =>
      schedule := [];
    case Some(p) =>
      var built := BuildSchedule(MedicinesOf(p));
      if built.Some? {
        ScheduleKeysDistinct(MedicinesOf(p));
      }
      schedule := built.GetOr([]);
  }

  class ReminderApp {
    /** The patient_name StringVar, edited through the entry field. */
    var patientName: string
    /** The text of reminder_label. */
    var reminderLabel: string
    /** The rows of the list box. */
    var listRows: seq<string>

    constructor()
      ensures patientName == DefaultPatientName
      ensures reminderLabel == InitialReminderLabel && listRows == []
    {
      patientName := DefaultPatientName;
      reminderLabel := InitialReminderLabel;
      listRows := [];
    }

    /** The user edits the entry field. */
    method EditPatientName(name: string)
      modifies this
      ensures patientName == name
      ensures reminderLabel == old(reminderLabel) && listRows == old(listRows)
    {
      patientName := name;
    }

    /** update_medicine_list: the list box is cleared and refilled with one row per
        medicine, in schedule order. The patient name is untouched. */
    method UpdateMedicineList(file: Option<Prescription>)
      modifies this
      ensures var s := LoadedSchedule(file);
        |listRows| == |s| && forall i :: 0 <= i < |s| ==> listRows[i] == ListLine(s[i])
      ensures patientName == old(patientName) && reminderLabel == old(reminderLabel)
    {
      listRows := [];
      var schedule := LoadMedicineSchedule(file);
      listRows := RenderList(schedule);
    }

    /** check_medicine_reminders: reload, then fire for the first medicine due at now,
        if any; the spoken greeting uses whatever name the entry field holds. */
    method CheckMedicineReminders(file: Option<Prescription>, now: string) returns (alert: Option<Alert>)
      modifies this
      ensures alert == DueAlert(LoadedSchedule(file), now, patientName)
      ensures alert.Some? ==> reminderLabel == alert.value.message
      ensures alert.None? ==> reminderLabel == old(reminderLabel)
      ensures patientName == old(patientName) && listRows == old(listRows)
    {
      var schedule := LoadMedicineSchedule(file);
      var due := FindDue(schedule, now);
      match due
      case None =>
        alert := None;
      case Some(i) =>
        var message := AlertMessage(schedule[i].medicine, schedule[i].dosage);
        reminderLabel := message;
        var spoken := ReminderText(patientName, schedule[i].medicine, schedule[i].dosage);
        alert := Some(Alert(message, spoken, PopupText(spoken)));
    }
  }
}
