# ScheduleEntry in Dafny

A model of `ScheduleEntry`, the record the OLED train schedule display uses for
one departure. It holds a scheduled timestamp and an actual timestamp (unsigned
32-bit), and hours, minutes and a city index (unsigned 8-bit). A new entry is
all zeros. Each field has one setter and one getter. Nothing is validated: hours
of 24 or more, minutes of 60 or more and any city index are stored as given.
The two timestamps have no required order.

- `entry_state.dfy`, module `EntryState`: the `u32` and `u8` newtypes, which
  admit exactly the values of `uint32_t` and `uint8_t`. It also holds the
  value-level view `Fields`, the setter calls as a datatype `Setter`, the effect
  of one call (`Apply`) and of a sequence of calls (`Replay`), and the lemmas
  about them.
- `schedule_entry.dfy`, module `Schedule`: the class `ScheduleEntry` with
  its five mutable fields, its constructor, the five setters (`modifies this`)
  and the five getters (no `modifies` clause, so they cannot change the
  object). Every setter's contract says that its field now holds the argument,
  that the other four fields are unchanged, and that the new `Snapshot()` is
  `Apply` of the old one. Three client methods show what callers can rely on.

Each setter's parameter has its field's type, and so does each getter's
result. Storing and reading therefore need no conversion. The setter and
getter contracts (`hours == newHours`, `h == hours`) say this for every value
of the type.

## Model

| member | source | states |
|---|---|---|
| `Schedule.ScheduleEntry.constructor` | ScheduleEntry.cpp:15-21 | a new entry has scheduled timestamp, actual timestamp, hours, minutes and city index all 0 |
| `Schedule.ScheduleEntry.SetScheduledTstamp` | ScheduleEntry.cpp:23-25 | the scheduled timestamp becomes the argument (any 32-bit value); the other four fields are unchanged |
| `Schedule.ScheduleEntry.GetScheduledTstamp` | ScheduleEntry.cpp:27-29 | returns the stored scheduled timestamp and changes nothing |
| `Schedule.ScheduleEntry.SetActualTstamp` | ScheduleEntry.cpp:31-33 | the actual timestamp becomes the argument, with no check against the scheduled one; the other four fields are unchanged |
| `Schedule.ScheduleEntry.GetActualTstamp` | ScheduleEntry.cpp:35-37 | returns the stored actual timestamp and changes nothing |
| `Schedule.ScheduleEntry.SetHours` | ScheduleEntry.cpp:39-41 | hours becomes the argument for every 8-bit value, 24 and above unclamped; the other four fields are unchanged |
| `Schedule.ScheduleEntry.GetHours` | ScheduleEntry.cpp:43-45 | returns the stored hours and changes nothing |
| `Schedule.ScheduleEntry.SetMinutes` | ScheduleEntry.cpp:47-49 | minutes becomes the argument for every 8-bit value, 60 and above unclamped; the other four fields are unchanged |
| `Schedule.ScheduleEntry.GetMinutes` | ScheduleEntry.cpp:51-53 | returns the stored minutes and changes nothing |
| `Schedule.ScheduleEntry.SetCityIndex` | ScheduleEntry.cpp:55-57 | the city index becomes the argument with no bounds check; the other four fields are unchanged |
| `Schedule.ScheduleEntry.GetCityIndex` | ScheduleEntry.cpp:59-61 | returns the stored city index and changes nothing |
| `Schedule.WriteThenRead` | ScheduleEntry.cpp:15-61 | construct, set all five fields, read all five: the values read are exactly the values written, for every combination |
| `Schedule.WorkedExample` | ScheduleEntry.cpp:15-61 | timestamps 1700000000 and 1700000005, time 14:30 and city 7 read back unchanged |
| `Schedule.ReadsAreStable` | ScheduleEntry.cpp:27-61 | reading all five getters twice gives the same values both times, equal to the stored fields |
| `EntryState.Zeroed` | ScheduleEntry.cpp:15-21 | the initial state has every field equal to 0 |
| `EntryState.Apply` | ScheduleEntry.cpp:23-57 | a setter call stores its argument unchanged in its own field and leaves every other field as it was |
| `EntryState.LastWriteWins` | ScheduleEntry.h:19-42 | since the fields are private and only the setters write them, after any sequence of setter calls each field holds the argument of the last call that wrote it, or its earlier value |
| `EntryState.UntouchedFieldKeepsValue` | ScheduleEntry.h:37-42 | a field that no call in a sequence writes keeps its value |
| `EntryState.SameFieldOverwrites` | ScheduleEntry.cpp:23-57 | a second call of the same setter discards the first call's value |
| `EntryState.DistinctFieldsCommute` | ScheduleEntry.cpp:23-57 | setters of different fields are independent: their order does not matter |
| `EntryState.EveryStateReachable` | ScheduleEntry.h:22-42 | with no range checks, every combination of 32-bit timestamps and 8-bit hours, minutes and city index is reached from any state (the zeroed one included) by one call of each setter |

## Left out

- The `Arduino.h` dependency (ScheduleEntry.h:15): it supplies only `uint8_t` and `uint32_t`, which are the `u8` and `u32` newtypes here.
- C++ `private` access control: Dafny offers no per-field privacy inside a module. The model instead states what privacy buys. The class's fields change only in its constructor and setters. `EntryState.LastWriteWins` states the consequence for any sequence of setter calls.
- The order in which the header declares the fields, and their memory layout: neither is observable through the accessors.
- Any meaning of the timestamps (unit, epoch, time zone) and any relation between scheduled and actual time: the code computes none.
- Copying, destruction and sharing of entries between threads: the source defines none of these itself.
