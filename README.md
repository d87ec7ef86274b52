# Name fields of the BCS `sysname.dat` record

A BCS building-automation device keeps the names of its eight processes in a
single comma-delimited resource, `sysname.dat`. Once split on commas it is one
flat list of text fields. Each process owns four runs of fields in that list:

- its process name (1 field);
- 8 state names;
- 4 web-input names;
- 4 timer names.

Processes 0-3 sit in a first bank (names at 1-4, state names at 5-36, web-input
names at 47-62, timer names at 67-82). Processes 4-7 sit in a second bank
(105-108, 109-140, 141-156, 157-172). Fields 0, 37-46, 63-66 and 83-104, and every field
from 173 on, belong to no process name.

The model covers three parts of `bcs.py`:

- `_name_fields`, the arithmetic that gives the four run starts of a process;
- the extraction half of `get_process_name`, which reads one field and three
  slices;
- the splice half of `set_process_name`, which overwrites those fields in the
  existing list and leaves every other field alone.

Two modules hold the model:

- `NameLayout` (`name_fields.dfy`) holds the addressing. This module has:
  - `_name_fields` as written (`NameFieldsAsWritten`) and as intended
    (`NameFields`);
  - the address of every name field (`Address`);
  - an independent region-by-region map of the record (`Locate`);
  - lemmas that the two agree, so no two name fields share an index and the
    runs of different processes never overlap.
- `SysName` (`sys_name.dfy`) holds the rest of the behaviour:
  - the read is a pure function over the field list (`GetProcessName`). It
    mirrors Python's slice semantics, so a short list gives short slices.
  - the write is specified pointwise by `Splice`: a written field holds its new
    name, and every other field keeps its value.
  - `SpliceInOrder` is the write as the source performs it: the name
    assignment, then three `zip` loops (`Overwrite`). A lemma proves the two
    agree.
  - `SetProcessName` performs the write in place on an `array<string>`, with
    one `while` loop per `zip` loop (`WriteRun`).

The model starts from the field list: `data.split(',')` and `','.join(...)`
are its boundary. The dictionary literal of `get_process_name` at
`bcs.py:47-48` lacks the commas after the entries at lines 47 and 48; the model follows the evident
intent and reads all four entries. Two other slips, at `bcs.py:78` and
`bcs.py:102`, sit in `get_state_info` and `set_process`, which are listed under
"## Left out".

## Model

| member | source | states |
|---|---|---|
| `NameLayout.NameFieldsAsWritten` | bcs.py:21-34 | as written, a process number is rejected with the ValueError if and only if it is 8 or more; negative numbers pass |
| `NameLayout.NameFields` | bcs.py:21-34 | as intended: a layout comes back if and only if 0 <= p < 8, and every other number gets the out-of-range error naming that number. In a returned layout the four runs lie between index 1 and 173, in the order name, states, web inputs, timers, without overlap |
| `NameLayout.RunStart` | bcs.py:22-31 | the run of each kind of every valid process ends at or below index 173 |
| `NameLayout.Address` | bcs.py:22-31 | every name field of every valid process has an index in 1..172 that lies inside its own run |
| `NameLayout.Locate` | bcs.py:22-31 | the region map only names fields with a valid process number (0..7) and an offset within the run width |
| `NameLayout.LocateInBank` | bcs.py:22-31 | the exact index formulas. Processes 0-3 use 1+p, 5+8p+k, 47+4p+k and 67+4p+k. Processes 4-7 use 105+(p-4), 109+8(p-4)+k, 141+4(p-4)+k and 157+4(p-4)+k |
| `NameLayout.LocateAddress` | bcs.py:21-34 | the region map finds every name field at exactly the index `_name_fields` gives it |
| `NameLayout.AddressLocate` | bcs.py:21-34 | every index the region map assigns is the address `_name_fields` gives that field (the converse direction) |
| `NameLayout.RunOwnership` | bcs.py:21-34 | an index lies in the run of some kind of process p if and only if the region map assigns it to process p and that kind |
| `NameLayout.NoAliasing` | bcs.py:21-34 | two name fields with the same index are the same field: same process, kind and offset |
| `NameLayout.ProcessesDisjoint` | bcs.py:21-34 | no index lies in a run of two different processes |
| `NameLayout.RunsDisjoint` | bcs.py:21-34 | the four runs of one process are pairwise disjoint |
| `NameLayout.NegativeProcessNumberAccepted` | bcs.py:22-33 | process number -1 is accepted as written, with the layout (0, -3, 43, 63). Its state run starts at -3 and covers the name field of process 0. The intended version rejects it |
| `SysName.Slice` | bcs.py:47-49 | Python slice `fields[lo:hi]`: its length is the part of lo..hi inside the list, and element k is `fields[lo+k]` |
| `SysName.GetProcessName` | bcs.py:43-50 | reading succeeds if and only if the number is 0..7 and the list holds that process's name field. An invalid number gets the out-of-range error; a valid number on a list without that name field gets the IndexError. On a list of at least 173 fields, every list comes back at full width (8, 4, 4) |
| `SysName.ReadNames` | bcs.py:45-50 | the dictionary holds the field at the process-name index, and no list is longer than its kind's width (8, 4, 4). On a list of at least 173 fields, every list is at full width |
| `SysName.ReadNamesAt` | bcs.py:45-50 | each name in the returned dictionary is the field at its place in its run |
| `SysName.GetProcessNameReads` | bcs.py:44-49 | every returned name lies within its kind's width, and it is the list field at that name's address |
| `SysName.GetProcessNameFull` | bcs.py:44-49 | on a list of at least 173 fields, reading succeeds and returns exactly 8 state, 4 web-input and 4 timer names, each the field at its address |
| `SysName.SameReads` | bcs.py:44-49 | two equally long lists that agree on a process's name field and three slices read the same result for that process |
| `SysName.Overwrite` | bcs.py:61-66 | one `zip` loop: the list keeps its length. Exactly the first min(width, number of names) fields from the start receive the names in order, and every other field is unchanged |
| `SysName.Splice` | bcs.py:58-66 | the write keeps the length of the field list |
| `SysName.SpliceFits` | bcs.py:59-66 | the condition under which no assignment of `set_process_name` raises IndexError: the name index and every `zip` run lie inside the list. Any names fit a list of at least 173 fields |
| `SysName.SpliceInOrder` | bcs.py:60-66 | the assignments in source order (name, then the three `zip` loops) keep the length and leave the process name at its index; equal to `Splice` by `SpliceInOrderIsSplice` |
| `SysName.SpliceInOrderAt` | bcs.py:60-66 | at each index, the assignments in source order leave the value the pointwise splice prescribes |
| `SysName.SpliceInOrderIsSplice` | bcs.py:60-66 | the name assignment followed by the three `zip` loops produces the pointwise splice: no later loop undoes an earlier assignment |
| `SysName.SpliceWrites` | bcs.py:60-66 | after the write, `existing[start+k]` holds the k-th supplied name of that kind, for k < min(width, number of names) |
| `SysName.SpliceWritesRun` | bcs.py:61-66 | all the written fields of one run hold their names, and the written part lies inside the list |
| `SysName.SpliceFrame` | bcs.py:60-66 | a field that no assignment writes keeps its value. This covers other processes, unnamed fields, and slots past the end of a short input list, because `zip` stops at the shorter list |
| `SysName.SpliceOutsideRuns` | bcs.py:60-66 | every field outside the four runs of the layout keeps its value |
| `SysName.SpliceRunReadsBack` | bcs.py:47-49 | a run written from a full-width list reads back as exactly that list |
| `SysName.SpliceThenGet` | bcs.py:44-66 | round trip: names written with full-width lists are read back exactly by `get_process_name` for the same process |
| `SysName.GetThenSpliceAt` | bcs.py:44-66 | writing back the names just read leaves each field unchanged |
| `SysName.GetThenSplice` | bcs.py:44-66 | writing back the names just read always fits and leaves the whole list unchanged, even when the list is too short for full slices |
| `SysName.SpliceIdempotent` | bcs.py:58-66 | writing the same names twice gives the same list as writing them once |
| `SysName.SpliceKeepsOtherRun` | bcs.py:59-66 | writing process p leaves every field in the runs of any other process q unchanged |
| `SysName.SpliceKeepsOtherSlice` | bcs.py:59-66 | writing process p leaves every slice that another process q reads unchanged |
| `SysName.SpliceKeepsOtherProcesses` | bcs.py:43-66 | after writing process p, `get_process_name` for any other process q returns what it returned before |
| `SysName.WriteRun` | bcs.py:61-66 | one `zip` loop run in place on the array: the array afterwards equals `Overwrite` of its old contents |
| `SysName.SetProcessName` | bcs.py:53-66 | the write succeeds if and only if the number is 0..7 and every assignment lands inside the list. On success the array becomes the pointwise splice of its old contents. On failure it is unchanged, and the error is out-of-range for a bad number or IndexError for a short list |

## Findings

| source | as written | input that shows it | evidently intended | confidence | as-written member | corrected member |
|---|---|---|---|---|---|---|
| bcs.py:22-33 | `_name_fields` rejects only process numbers of 8 and above. A negative number takes the branch for processes 0-3, and the error message says that only numbers below 8 and above 0 are valid | `process_num = -1` gives name index 0 and state run start -3. On the write path, the first `zip` loop of `set_process_name` assigns indices -3..-1 (the last three fields of the list) and then 0..4, which include the name fields of processes 0-3, so it overwrites them. On the read path, `get_process_name` slices `fields[-3:5]`, which is empty on a list of 8 or more fields | raise the ValueError for every number outside 0..7. Process 0 stays valid: its runs start at field 1 (bcs.py:23) and there are eight processes, 0..7, so the message's "> 0" is itself off by one | not executed; high, from the arithmetic and the error message | `NameLayout.NegativeProcessNumberAccepted` | `NameLayout.NameFields` |

## Left out

- `get_bcs` and `put_bcs` (bcs.py:3-18) are left out. They are HTTP requests through `requests` and raise `RequestError`: foreign I/O.
- `get_state_info` and `set_state_info` (bcs.py:72-86) are left out. They only fetch or store ucstate/ulstate text and split or join it. They have no field-level logic.
- `get_process` and `set_process` (bcs.py:89-103) are left out. They only call the network functions in sequence.
- `get_process_to_file` and `set_process_from_file` (bcs.py:106-115) are left out. They are file I/O and JSON persistence.
- The comma split and join are the model's boundary, so a name that contains a comma is not modelled. Such a name would break the round trip through the text form.
- Python's negative list indices are left out. Only the rejected negative process numbers would reach them, and the finding above exhibits that case.
- A `KeyError` for a missing key in the `process` dictionary is left out. `ProcessNames` always carries all four entries.
- Values that are not strings are left out. The model's fields are `seq<char>`.
- SetProcessName: when an assignment falls outside the list, the source has already made the earlier assignments to its local copy before the `IndexError`. That copy is then discarded, so nothing is sent to the device. The model checks all assignments first and leaves the array unchanged.
