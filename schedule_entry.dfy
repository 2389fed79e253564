/** The schedule entry record itself: a class with five private fixed-width
    fields, a constructor that zeroes them, and one setter and one getter per
    field. */
module Schedule {
  import opened EntryState

  class ScheduleEntry {
    var scheduledTstamp: u32
    var actualTstamp: u32
    var cityIndex: u8
    var hours: u8
    var minutes: u8

    /** The five stored values, as one value. */
    function Snapshot(): Fields
      reads this
    {
      Fields(scheduledTstamp, actualTstamp, hours, minutes, cityIndex)
    }

    /** A new entry has every field equal to 0. */
    constructor ()
      ensures scheduledTstamp == 0 && actualTstamp == 0
      ensures hours == 0 && minutes == 0 && cityIndex == 0
      ensures Snapshot() == Zeroed()
    {
      scheduledTstamp := 0;
      actualTstamp := 0;
      hours := 0;
      minutes := 0;
      cityIndex := 0;
    }

    method SetScheduledTstamp(scheduled: u32)
      modifies this
      ensures scheduledTstamp == scheduled
      ensures actualTstamp == old(actualTstamp) && hours == old(hours)
      ensures minutes == old(minutes) && cityIndex == old(cityIndex)
      ensures Snapshot() == Apply(old(Snapshot()), Setter.SetScheduledTstamp(scheduled))
    {
      scheduledTstamp := scheduled;
    }

    method GetScheduledTstamp() returns (scheduled: u32)
      ensures scheduled == scheduledTstamp
    {
      scheduled := scheduledTstamp;
    }

    /** No ordering against the scheduled timestamp is checked or kept. */
    method SetActualTstamp(actual: u32)
      modifies this
      ensures actualTstamp == actual
      ensures scheduledTstamp == old(scheduledTstamp) && hours == old(hours)
      ensures minutes == old(minutes) && cityIndex == old(cityIndex)
      ensures Snapshot() == Apply(old(Snapshot()), Setter.SetActualTstamp(actual))
    {
      actualTstamp := actual;
    }

    method GetActualTstamp() returns (actual: u32)
      ensures actual == actualTstamp
    {
      actual := actualTstamp;
    }

    /** Any 8-bit value is stored, 24 and above included. */
    method SetHours(newHours: u8)
      modifies this
      ensures hours == newHours
      ensures scheduledTstamp == old(scheduledTstamp) && actualTstamp == old(actualTstamp)
      ensures minutes == old(minutes) && cityIndex == old(cityIndex)
      ensures Snapshot() == Apply(old(Snapshot()), Setter.SetHours(newHours))
    {
      hours := newHours;
    }

    method GetHours() returns (h: u8)
      ensures h == hours
    {
      h := hours;
    }

    /** Any 8-bit value is stored, 60 and above included. */
    method SetMinutes(newMinutes: u8)
      modifies this
      ensures minutes == newMinutes
      ensures scheduledTstamp == old(scheduledTstamp) && actualTstamp == old(actualTstamp)
      ensures hours == old(hours) && cityIndex == old(cityIndex)
      ensures Snapshot() == Apply(old(Snapshot()), Setter.SetMinutes(newMinutes))
    {
      minutes := newMinutes;
    }

    method GetMinutes() returns (m: u8)
      ensures m == minutes
    {
      m := minutes;
    }

    /** Any 8-bit value is stored: the index is not checked against any city list. */
    method SetCityIndex(newCityIndex: u8)
      modifies this
      ensures cityIndex == newCityIndex
      ensures scheduledTstamp == old(scheduledTstamp) && actualTstamp == old(actualTstamp)
      ensures hours == old(hours) && minutes == old(minutes)
      ensures Snapshot() == Apply(old(Snapshot()), Setter.SetCityIndex(newCityIndex))
    {
      cityIndex := newCityIndex;
    }

    method GetCityIndex() returns (c: u8)
      ensures c == cityIndex
    {
      c := cityIndex;
    }
  }

  /** Constructs an entry, sets all five fields from `t` and reads them back:
      every getter returns exactly what its setter stored, whatever the values
      (hours of 24 or more, minutes of 60 or more, any city index), and no
      setter disturbs a field set before it. */
  method WriteThenRead(t: Fields) returns (read: Fields)
    ensures read == t
  {
    var e := new ScheduleEntry();
    e.SetScheduledTstamp(t.scheduledTstamp);
    e.SetActualTstamp(t.actualTstamp);
    e.SetHours(t.hours);
    e.SetMinutes(t.minutes);
    e.SetCityIndex(t.cityIndex);
    var scheduled := e.GetScheduledTstamp();
    var actual := e.GetActualTstamp();
    var h := e.GetHours();
    var m := e.GetMinutes();
    var c := e.GetCityIndex();
    read := Fields(scheduled, actual, h, m, c);
  }

  /** The worked example: an entry planned at 1700000000, observed at
      1700000005, at 14:30, for city 7, reads back as exactly those values. */
  method WorkedExample() returns (read: Fields)
    ensures read.scheduledTstamp == 1700000000 && read.actualTstamp == 1700000005
    ensures read.hours == 14 && read.minutes == 30 && read.cityIndex == 7
  {
    read := WriteThenRead(Fields(1700000000, 1700000005, 14, 30, 7));
  }

  /** Getters change nothing: reading all five fields twice gives the same
      values both times, and they are the entry's stored values. */
  method ReadsAreStable(e: ScheduleEntry) returns (first: Fields, second: Fields)
    ensures first == e.Snapshot() && second == first
  {
    var s1 := e.GetScheduledTstamp();
    var a1 := e.GetActualTstamp();
    var h1 := e.GetHours();
    var m1 := e.GetMinutes();
    var c1 := e.GetCityIndex();
    first := Fields(s1, a1, h1, m1, c1);
    var s2 := e.GetScheduledTstamp();
    var a2 := e.GetActualTstamp();
    var h2 := e.GetHours();
    var m2 := e.GetMinutes();
    var c2 := e.GetCityIndex();
    second := Fields(s2, a2, h2, m2, c2);
  }
}
