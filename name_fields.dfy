/** Addressing of the name fields of the BCS `sysname.dat` record.

    `sysname.dat` is one flat, comma-delimited record. For each of the eight
    processes it holds a process name, eight state names, four web-input names
    and four timer names, at fixed positions. Processes 0-3 and 4-7 live in two
    separate banks of the record with the same inner arrangement.
 */
module NameLayout {

  datatype Error =
    | ProcessNumberOutOfRange(processNum: int)  // the ValueError of `_name_fields`
    | IndexOutOfRange                           // Python's IndexError on a list that is too short

  datatype Result<+T> = Ok(value: T) | Err(error: Error)

  datatype Option<+T> = None | Some(value: T)

  const ProcessCount: nat := 8
  const StateNameCount: nat := 8
  const WebInputNameCount: nat := 4
  const TimerNameCount: nat := 4

  /** Every name field of every process lies strictly below this index. */
  const AddressedLength: nat := 173

  /** The four absolute indices `_name_fields` returns for one process. */
  datatype Layout = Layout(procnameIdx: int, stateStart: int, winStart: int, timerStart: int)

  /** `_name_fields` exactly as written: only process numbers of 8 and above are
      rejected, so a negative number takes the branch of processes 0-3. */
  function NameFieldsAsWritten(processNum: int): (r: Result<Layout>)
    ensures r.Err? <==> processNum >= ProcessCount
    ensures r.Err? ==> r.error == ProcessNumberOutOfRange(processNum)
  {
    if processNum < 4 then
      Ok(Layout(1 + processNum, 5 + processNum * 8, 47 + processNum * 4, 67 + processNum * 4))
    else if processNum < 8 then
      Ok(Layout(105 + (processNum - 4), 109 + (processNum - 4) * 8,
                141 + (processNum - 4) * 4, 157 + (processNum - 4) * 4))
    else
      Err(ProcessNumberOutOfRange(processNum))
  }

  /** The four runs of a layout lie inside the name region, in the order
      process name, state names, web-input names, timer names, without overlap. */
  predicate OrderedInside(lay: Layout) {
    0 < lay.procnameIdx
    && lay.procnameIdx + 1 <= lay.stateStart
    && lay.stateStart + StateNameCount <= lay.winStart
    && lay.winStart + WebInputNameCount <= lay.timerStart
    && lay.timerStart + TimerNameCount <= AddressedLength
  }

  /** `_name_fields` as its error message intends: a process number must lie in
      0..7; the rest of the model uses this one. */
  function NameFields(processNum: int): (r: Result<Layout>)
    ensures r.Ok? <==> 0 <= processNum < ProcessCount
    ensures r.Err? ==> r.error == ProcessNumberOutOfRange(processNum)
    ensures r.Ok? ==> OrderedInside(r.value)
  {
    if processNum < 0 then Err(ProcessNumberOutOfRange(processNum))
    else NameFieldsAsWritten(processNum)
  }

  /** What a name field of a process holds. */
  datatype FieldKind = ProcessName | StateName | WebInputName | TimerName

  /** How many consecutive fields of a kind one process owns. */
  function Width(kind: FieldKind): nat {
    match kind
    case ProcessName => 1
    case StateName => StateNameCount
    case WebInputName => WebInputNameCount
    case TimerName => TimerNameCount
  }

  /** Where the run of a kind begins in a layout. */
  function Start(lay: Layout, kind: FieldKind): int {
    match kind
    case ProcessName => lay.procnameIdx
    case StateName => lay.stateStart
    case WebInputName => lay.winStart
    case TimerName => lay.timerStart
  }

  /** Index `i` lies in the run of `kind` of the layout. */
  predicate InRun(lay: Layout, kind: FieldKind, i: int) {
    Start(lay, kind) <= i < Start(lay, kind) + Width(kind)
  }

  /** Where the run of `kind` of a valid process begins. */
  function RunStart(processNum: int, kind: FieldKind): (s: nat)
    requires 0 <= processNum < ProcessCount
    ensures s + Width(kind) <= AddressedLength
  {
    Start(NameFields(processNum).value, kind)
  }

  /** One name field: the `offset`-th field of `kind` of a process. */
  datatype FieldRef = FieldRef(processNum: int, kind: FieldKind, offset: int)

  predicate ValidRef(ref: FieldRef) {
    0 <= ref.processNum < ProcessCount && 0 <= ref.offset < Width(ref.kind)
  }

  /** The absolute index of a name field, by way of `NameFields`. */
  function Address(ref: FieldRef): (i: nat)
    requires ValidRef(ref)
    ensures 0 < i < AddressedLength
    ensures InRun(NameFields(ref.processNum).value, ref.kind, i)
  {
    RunStart(ref.processNum, ref.kind) + ref.offset
  }

  /** An independent map of the name region of `sysname.dat`, read region by
      region rather than process by process: which name field, if any, index
      `i` holds. Field 0 and the gaps 37-46, 63-66 and 83-104 hold none. */
  function Locate(i: int): (r: Option<FieldRef>)
    ensures r.Some? ==> ValidRef(r.value)
  {
    if 1 <= i < 5 then Some(FieldRef(i - 1, ProcessName, 0))
    else if 5 <= i < 37 then Some(FieldRef((i - 5) / 8, StateName, (i - 5) % 8))
    else if 47 <= i < 63 then Some(FieldRef((i - 47) / 4, WebInputName, (i - 47) % 4))
    else if 67 <= i < 83 then Some(FieldRef((i - 67) / 4, TimerName, (i - 67) % 4))
    else if 105 <= i < 109 then Some(FieldRef(4 + (i - 105), ProcessName, 0))
    else if 109 <= i < 141 then Some(FieldRef(4 + (i - 109) / 8, StateName, (i - 109) % 8))
    else if 141 <= i < 157 then Some(FieldRef(4 + (i - 141) / 4, WebInputName, (i - 141) % 4))
    else if 157 <= i < 173 then Some(FieldRef(4 + (i - 157) / 4, TimerName, (i - 157) % 4))
    else None
  }

  /** Offset `k` into run number `n` of a region of runs of width 8. */
  lemma RunOfEight(n: int, k: int)
    requires 0 <= n && 0 <= k < 8
    ensures (8 * n + k) / 8 == n && (8 * n + k) % 8 == k
  {
  }

  /** Offset `k` into run number `n` of a region of runs of width 4. */
  lemma RunOfFour(n: int, k: int)
    requires 0 <= n && 0 <= k < 4
    ensures (4 * n + k) / 4 == n && (4 * n + k) % 4 == k
  {
  }

  /** The region map finds a name field of `kind` and `offset` of a process
      in bank 0 (processes 0-3) or bank 1 (processes 4-7). */
  lemma LocateInBank(ref: FieldRef)
    requires ValidRef(ref)
    ensures var bank := if ref.processNum < 4 then ref.processNum else ref.processNum - 4;
            var i := Address(ref);
            match ref.kind
            case ProcessName => i == (if ref.processNum < 4 then 1 else 105) + bank
            case StateName => i == (if ref.processNum < 4 then 5 else 109) + 8 * bank + ref.offset
            case WebInputName => i == (if ref.processNum < 4 then 47 else 141) + 4 * bank + ref.offset
            case TimerName => i == (if ref.processNum < 4 then 67 else 157) + 4 * bank + ref.offset
  {
  }

  /** The region map finds every name field exactly where `NameFields` puts it. */
  lemma LocateAddress(ref: FieldRef)
    requires ValidRef(ref)
    ensures Locate(Address(ref)) == Some(ref)
  {
    var p, k := ref.processNum, ref.offset;
    var bank := if p < 4 then p else p - 4;
    LocateInBank(ref);
    match ref.kind
    case ProcessName =>
    case StateName => RunOfEight(bank, k);
    case WebInputName => RunOfFour(bank, k);
    case TimerName => RunOfFour(bank, k);
  }

  /** Every index the region map names is the address of the field it names. */
  lemma AddressLocate(i: int)
    requires Locate(i).Some?
    ensures Address(Locate(i).value) == i
  {
  }

  /** An index lies in a run of a process exactly when the region map assigns it
      to that process and that kind. */
  lemma RunOwnership(processNum: int, kind: FieldKind, i: int)
    requires 0 <= processNum < ProcessCount
    ensures InRun(NameFields(processNum).value, kind, i)
            <==> Locate(i).Some? && Locate(i).value.processNum == processNum && Locate(i).value.kind == kind
  {
    if InRun(NameFields(processNum).value, kind, i) {
      var ref := FieldRef(processNum, kind, i - RunStart(processNum, kind));
      LocateAddress(ref);
    }
    if Locate(i).Some? {
      AddressLocate(i);
    }
  }

  /** No two distinct name fields share an index. */
  lemma NoAliasing(a: FieldRef, b: FieldRef)
    requires ValidRef(a) && ValidRef(b)
    requires Address(a) == Address(b)
    ensures a == b
  {
    LocateAddress(a);
    LocateAddress(b);
  }

  /** The runs of two different processes never overlap, whatever their kinds. */
  lemma ProcessesDisjoint(p: int, q: int, kindP: FieldKind, kindQ: FieldKind, i: int)
    requires 0 <= p < ProcessCount && 0 <= q < ProcessCount && p != q
    ensures !(InRun(NameFields(p).value, kindP, i) && InRun(NameFields(q).value, kindQ, i))
  {
    RunOwnership(p, kindP, i);
    RunOwnership(q, kindQ, i);
  }

  /** The four runs of one process never overlap. */
  lemma RunsDisjoint(p: int, kindA: FieldKind, kindB: FieldKind, i: int)
    requires 0 <= p < ProcessCount && kindA != kindB
    ensures !(InRun(NameFields(p).value, kindA, i) && InRun(NameFields(p).value, kindB, i))
  {
    RunOwnership(p, kindA, i);
    RunOwnership(p, kindB, i);
  }

  /** As written, process number -1 is accepted; its state-name run starts at
      -3 and reaches index 1, the name field of process 0. On the write path
      `set_process_name` assigns indices -3..-1 (the last three fields, counted
      from the end of the list) and then 0..4; on the read path the slice
      `fields[-3:5]` of `get_process_name` is empty on a list of 8 or more fields. */
  lemma NegativeProcessNumberAccepted()
    ensures NameFieldsAsWritten(-1).Ok?
    ensures NameFieldsAsWritten(-1).value == Layout(0, -3, 43, 63)
    ensures InRun(NameFieldsAsWritten(-1).value, StateName, Address(FieldRef(0, ProcessName, 0)))
    ensures NameFields(-1) == Err(ProcessNumberOutOfRange(-1))
  {
  }
}
