/**
 * The patient's four-step booking wizard: choose a doctor, a visit type, a
 * date and a time slot, then book; the confirmation looks the chosen doctor
 * and visit type up by id.  Each click handler only runs when its control is
 * on screen, so a handler called in any other state leaves the wizard as it
 * was.
 */
module AppointmentBooking {
  import opened Wrappers
  import opened Search

  datatype Doctor = Doctor(id: string, name: string, specialty: string, available: bool)

  /** A visit type; its display `label` is `title` here. */
  datatype VisitType = VisitType(id: string, title: string, duration: string)

  /** A calendar day; which days may be picked depends on the clock and is not modelled. */
  datatype Date = Date(year: int, month: int, day: int)

  const Doctors: seq<Doctor> := [
    Doctor("1", "Dr. Sarah Johnson", "General Physician", true),
    Doctor("2", "Dr. Michael Chen", "Cardiologist", true),
    Doctor("3", "Dr. Emily Davis", "Pediatrician", false)
  ]

  const VisitTypes: seq<VisitType> := [
    VisitType("regular", "Regular Checkup", "30 mins"),
    VisitType("first", "First Visit", "45 mins"),
    VisitType("followup", "Follow-up", "20 mins")
  ]

  const TimeSlots: seq<string> :=
    ["09:00", "09:30", "10:00", "10:30", "11:00", "11:30", "14:00", "14:30", "15:00", "15:30"]

  /** A doctor's radio item is enabled: the id belongs to an available doctor. */
  predicate Selectable(id: string)
  {
    exists k :: 0 <= k < |Doctors| && Doctors[k].id == id && Doctors[k].available
  }

  /** A visit type's radio item exists for the id. */
  predicate OfferedVisitType(id: string)
  {
    exists k :: 0 <= k < |VisitTypes| && VisitTypes[k].id == id
  }

  /** Exactly doctors `1` and `2` can be chosen; doctor `3` is unavailable. */
  lemma SelectableDoctors(id: string)
    ensures Selectable(id) <==> id == "1" || id == "2"
  {
    if id == "1" {
      assert Doctors[0].id == id && Doctors[0].available;
    } else if id == "2" {
      assert Doctors[1].id == id && Doctors[1].available;
    }
  }

  /** `doctors.find(d => d.id === id)`. */
  function FindDoctor(id: string): (d: Option<Doctor>)
    ensures d.Some? <==> exists k :: 0 <= k < |Doctors| && Doctors[k].id == id
    ensures d.Some? ==> d.value.id == id && d.value in Doctors
  {
    Find(Doctors, (x: Doctor) => x.id == id)
  }

  /** `visitTypes.find(v => v.id === id)`. */
  function FindVisitType(id: string): (v: Option<VisitType>)
    ensures v.Some? <==> OfferedVisitType(id)
    ensures v.Some? ==> v.value.id == id && v.value in VisitTypes
  {
    Find(VisitTypes, (x: VisitType) => x.id == id)
  }

  /** The ids of the doctor table are distinct, so the lookup returns the one doctor with that id. */
  lemma FindDoctorUnique(k: nat)
    requires k < |Doctors|
    ensures FindDoctor(Doctors[k].id) == Some(Doctors[k])
  {
  }

  /** The doctor found for a selectable id is the available one. */
  lemma SelectableFound(id: string)
    ensures Selectable(id) ==> FindDoctor(id).Some? && FindDoctor(id).value.available
  {
    if Selectable(id) {
      var k :| 0 <= k < |Doctors| && Doctors[k].id == id && Doctors[k].available;
      FindDoctorUnique(k);
    }
  }

  /** The confirmation card: `doctor?.name`, `visitType?.label`, the date and the time. */
  datatype Confirmation = Confirmation(
    doctor: Option<Doctor>, visitType: Option<VisitType>, date: Option<Date>, time: string)

  class Wizard {
    var step: int
    var selectedDoctor: string
    var selectedVisitType: string
    var selectedDate: Option<Date>
    var selectedTime: string
    var booked: bool

    /**
     * The step stays in 1..4; every selection is empty or one the screen
     * offers; each step past the first has the earlier steps' selections; a
     * booking happens on step 4 with a time.
     */
    ghost predicate Valid()
      reads this
    {
      && 1 <= step <= 4
      && (selectedDoctor == "" || Selectable(selectedDoctor))
      && (selectedVisitType == "" || OfferedVisitType(selectedVisitType))
      && (selectedTime == "" || selectedTime in TimeSlots)
      && (step >= 2 ==> selectedDoctor != "")
      && (step >= 3 ==> selectedVisitType != "")
      && (step == 4 ==> selectedDate.Some?)
      && (booked ==> step == 4 && selectedTime != "")
    }

    constructor ()
      ensures Valid()
      ensures step == 1 && selectedDoctor == "" && selectedVisitType == ""
      ensures selectedDate == None && selectedTime == "" && !booked
    {
      step, selectedDoctor, selectedVisitType := 1, "", "";
      selectedDate, selectedTime, booked := None, "", false;
    }

    /** Step 1's radio group: only an available doctor's item can be chosen. */
    method SelectDoctor(id: string)
      requires Valid()
      modifies this
      ensures Valid()
      ensures selectedDoctor == if old(step) == 1 && !old(booked) && Selectable(id) then id else old(selectedDoctor)
      ensures step == old(step) && selectedVisitType == old(selectedVisitType) && selectedDate == old(selectedDate)
      ensures selectedTime == old(selectedTime) && booked == old(booked)
    {
      if step == 1 && !booked && Selectable(id) {
        selectedDoctor := id;
      }
    }

    /** Step 2's radio group. */
    method SelectVisitType(id: string)
      requires Valid()
      modifies this
      ensures Valid()
      ensures selectedVisitType == if old(step) == 2 && !old(booked) && OfferedVisitType(id) then id else old(selectedVisitType)
      ensures step == old(step) && selectedDoctor == old(selectedDoctor) && selectedDate == old(selectedDate)
      ensures selectedTime == old(selectedTime) && booked == old(booked)
    {
      if step == 2 && !booked && OfferedVisitType(id) {
        selectedVisitType := id;
      }
    }

    /** Step 3's calendar; choosing the selected day again clears the choice. */
    method SelectDate(date: Option<Date>)
      requires Valid()
      modifies this
      ensures Valid()
      ensures selectedDate == if old(step) == 3 && !old(booked) then date else old(selectedDate)
      ensures step == old(step) && selectedDoctor == old(selectedDoctor) && selectedVisitType == old(selectedVisitType)
      ensures selectedTime == old(selectedTime) && booked == old(booked)
    {
      if step == 3 && !booked {
        selectedDate := date;
      }
    }

    /** Step 4's grid of slot buttons. */
    method SelectTime(time: string)
      requires Valid()
      modifies this
      ensures Valid()
      ensures selectedTime == if old(step) == 4 && !old(booked) && time in TimeSlots then time else old(selectedTime)
      ensures step == old(step) && selectedDoctor == old(selectedDoctor) && selectedVisitType == old(selectedVisitType)
      ensures selectedDate == old(selectedDate) && booked == old(booked)
    {
      if step == 4 && !booked && time in TimeSlots {
        selectedTime := time;
      }
    }

    /** The Continue button of steps 1 to 3, disabled until the step's choice is made. */
    method Continue()
      requires Valid()
      modifies this
      ensures Valid()
      ensures step == if !old(booked) && old(step) < 4 && NextEnabled(old(step), old(selectedDoctor), old(selectedVisitType), old(selectedDate))
        then old(step) + 1 else old(step)
      ensures selectedDoctor == old(selectedDoctor) && selectedVisitType == old(selectedVisitType)
      ensures selectedDate == old(selectedDate) && selectedTime == old(selectedTime) && booked == old(booked)
    {
      if !booked && step < 4 && NextEnabled(step, selectedDoctor, selectedVisitType, selectedDate) {
        step := step + 1;
      }
    }

    /** The Back button of steps 2 to 4: always enabled, and it clears nothing. */
    method Back()
      requires Valid()
      modifies this
      ensures Valid()
      ensures step == if !old(booked) && old(step) > 1 then old(step) - 1 else old(step)
      ensures selectedDoctor == old(selectedDoctor) && selectedVisitType == old(selectedVisitType)
      ensures selectedDate == old(selectedDate) && selectedTime == old(selectedTime) && booked == old(booked)
    {
      if !booked && step > 1 {
        step := step - 1;
      }
    }

    /** `handleBookAppointment`, behind the Book Appointment button that needs a time. */
    method HandleBookAppointment()
      requires Valid()
      modifies this
      ensures Valid()
      ensures booked == (old(booked) || (old(step) == 4 && old(selectedTime) != ""))
      ensures step == old(step) && selectedDoctor == old(selectedDoctor) && selectedVisitType == old(selectedVisitType)
      ensures selectedDate == old(selectedDate) && selectedTime == old(selectedTime)
    {
      if !booked && step == 4 && selectedTime != "" {
        booked := true;
      }
    }

    /** Book Another Appointment: back to step 1, keeping every selection. */
    method BookAnother()
      requires Valid()
      modifies this
      ensures Valid()
      ensures !booked
      ensures step == if old(booked) then 1 else old(step)
      ensures selectedDoctor == old(selectedDoctor) && selectedVisitType == old(selectedVisitType)
      ensures selectedDate == old(selectedDate) && selectedTime == old(selectedTime)
    {
      if booked {
        booked, step := false, 1;
      }
    }

    /**
     * The confirmation shown once booked: both lookups succeed, the doctor is
     * an available one, and date and time are present.
     */
    function Summary(): (c: Confirmation)
      reads this
      requires Valid() && booked
      ensures c.doctor.Some? && c.doctor.value.id == selectedDoctor && c.doctor.value.available
      ensures c.visitType.Some? && c.visitType.value.id == selectedVisitType
      ensures c.date.Some? && c.time in TimeSlots
    {
      Confirm(selectedDoctor, selectedVisitType, selectedDate, selectedTime)
    }
  }

  /** Whether the Continue button of `step` is enabled; only steps 1 to 3 have one. */
  predicate NextEnabled(step: int, doctor: string, visitType: string, date: Option<Date>)
    ensures NextEnabled(step, doctor, visitType, date) ==> 1 <= step <= 3
  {
    match step
    case 1 => doctor != ""
    case 2 => visitType != ""
    case 3 => date.Some?
    case _ => false
  }

  /** The confirmation card for the given selections. */
  function Confirm(doctor: string, visitType: string, date: Option<Date>, time: string): (c: Confirmation)
    ensures Selectable(doctor) ==> c.doctor.Some? && c.doctor.value.id == doctor && c.doctor.value.available
    ensures c.visitType.Some? <==> OfferedVisitType(visitType)
    ensures c.date == date && c.time == time
  {
    SelectableFound(doctor);
    Confirmation(FindDoctor(doctor), FindVisitType(visitType), date, time)
  }
}
