/** The reminder window that takes the patient's name from the prescription file
    (alertmodify.py). The module-level state it mutates (the global patient_name and
    the texts of its patient label, reminder label and list box) becomes the fields
    of one object. The file's contents are an input (None when it cannot be read or
    is not JSON); the clock is an input "HH:MM". */
module AlertModify {
  import opened Common
  import opened Schedule

  const InitialPatientLabel: string := "Patient: Loading..."

  function PatientLabel(name: string): string {
    "Patient: " + name
  }

  class ReminderApp {
    /** The global patient_name. */
    var patientName: string
    /** The text of patient_label. */
    var patientLabel: string
    /** The text of reminder_label. */
    var reminderLabel: string
    /** The rows of the list box. */
    var listRows: seq<string>

    /** The window as built, before the first load. */
    constructor()
      ensures patientName == "" && patientLabel == InitialPatientLabel
      ensures reminderLabel == InitialReminderLabel && listRows == []
    {
      patientName := "";
      patientLabel := InitialPatientLabel;
      reminderLabel := InitialReminderLabel;
      listRows := [];
    }

    /** load_data_from_json: once the file is read, the patient name and its label
        are updated before the medicines are looked at, so they change even when a
        timing then fails and the schedule comes back empty. */
    method LoadDataFromJson(file: Option<Prescription>) returns (schedule: MedicineSchedule)
      modifies this
      ensures schedule == LoadedSchedule(file)
      ensures file.Some? ==> patientName == PatientNameOf(file.value) && patientLabel == PatientLabel(patientName)
      ensures file.None? ==> patientName == old(patientName) && patientLabel == old(patientLabel)
      ensures reminderLabel == old(reminderLabel) && listRows == old(listRows)
    {
      match file
      case None =>
        schedule := [];
      case Some(p) =>
        patientName := PatientNameOf(p);
        patientLabel := PatientLabel(patientName);
        var built := BuildSchedule(MedicinesOf(p));
        schedule := built.GetOr([]);
    }

    /** update_medicine_list (and the reload button, which only adds a message box):
        the list box is cleared and refilled with one row per medicine, in schedule
        order. */
    method UpdateMedicineList(file: Option<Prescription>)
      modifies this
      ensures var s := LoadedSchedule(file);
        |listRows| == |s| && forall i :: 0 <= i < |s| ==> listRows[i] == ListLine(s[i])
      ensures file.Some? ==> patientName == PatientNameOf(file.value) && patientLabel == PatientLabel(patientName)
      ensures file.None? ==> patientName == old(patientName) && patientLabel == old(patientLabel)
      ensures reminderLabel == old(reminderLabel)
    {
      listRows := [];
      var schedule := LoadDataFromJson(file);
      listRows := RenderList(schedule);
    }

    /** check_medicine_reminders: reload, then fire for the first medicine due at now,
        if any. The reminder label shows the alert's message; the spoken greeting uses
        the name just loaded. */
    method CheckMedicineReminders(file: Option<Prescription>, now: string) returns (alert: Option<Alert>)
      modifies this
      ensures alert == DueAlert(LoadedSchedule(file), now, patientName)
      ensures alert.Some? ==> reminderLabel == alert.value.message
      ensures alert.None? ==> reminderLabel == old(reminderLabel)
      ensures file.None? ==> alert.None? && patientName == old(patientName) && patientLabel == old(patientLabel)
      ensures file.Some? ==> patientName == PatientNameOf(file.value) && patientLabel == PatientLabel(patientName)
      ensures listRows == old(listRows)
    {
      var schedule := LoadDataFromJson(file);
      var due := FindDue(schedule, now);
      match due
      case None =>
        alert := None;
      case Some(i) =>
        var message := AlertMessage(schedule[i].medicine, schedule[i].dosage);
        reminderLabel := message;
        var spoken := ReminderText(patientName, schedule[i].medicine, schedule[i].dosage);
        alert := Some(Alert(message, spoken, PopupText(spoken)));
    }
  }
}
