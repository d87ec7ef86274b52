/** Reading and rewriting the names of one process in the field list of
    `sysname.dat` (`get_process_name` and `set_process_name`). The model starts
    from the list that `data.split(',')` produces and ends with the list that
    `','.join(...)` would send back.
 */
module SysName {
  import opened NameLayout

  /** The names of one process: the dictionary `get_process_name` returns and
      `set_process_name` takes. */
  datatype ProcessNames = ProcessNames(
    processName: string,
    stateNames: seq<string>,
    webInputNames: seq<string>,
    timerNames: seq<string>)

  /** The names a value holds for one kind of field, the process name as a
      list of one. */
  function Values(names: ProcessNames, kind: FieldKind): seq<string> {
    match kind
    case ProcessName => [names.processName]
    case StateName => names.stateNames
    case WebInputName => names.webInputNames
    case TimerName => names.timerNames
  }

  /** Every list holds exactly as many names as a process has fields of its kind. */
  predicate FullWidth(names: ProcessNames) {
    |names.stateNames| == StateNameCount
    && |names.webInputNames| == WebInputNameCount
    && |names.timerNames| == TimerNameCount
  }

  function Min(a: nat, b: nat): nat {
    if a < b then a else b
  }

  // ---------------------------------------------------------------------------
  // get_process_name
  // ---------------------------------------------------------------------------

  /** Python's `fields[lo:hi]` for `0 <= lo <= hi`: the part of the range that
      lies inside the list, possibly shorter than `hi - lo` or empty. */
  function Slice(fields: seq<string>, lo: nat, hi: nat): (r: seq<string>)
    requires lo <= hi
    ensures |r| == Min(hi, |fields|) - Min(lo, |fields|)
    ensures forall k :: 0 <= k < |r| ==> r[k] == fields[lo + k]
  {
    if hi <= |fields| then fields[lo..hi]
    else if lo <= |fields| then fields[lo..]
    else []
  }

  /** The dictionary `get_process_name` builds from the four indices of a layout. */
  function ReadNames(fields: seq<string>, lay: Layout): (r: ProcessNames)
    requires OrderedInside(lay) && lay.procnameIdx < |fields|
    ensures r.processName == fields[lay.procnameIdx]
    ensures |r.stateNames| <= StateNameCount && |r.webInputNames| <= WebInputNameCount
            && |r.timerNames| <= TimerNameCount
    ensures AddressedLength <= |fields| ==> FullWidth(r)
  {
    ProcessNames(
      fields[lay.procnameIdx],
      Slice(fields, lay.stateStart, lay.stateStart + StateNameCount),
      Slice(fields, lay.winStart, lay.winStart + WebInputNameCount),
      Slice(fields, lay.timerStart, lay.timerStart + TimerNameCount))
  }

  /** Each name the dictionary holds is the field at its place in the run. */
  lemma ReadNamesAt(fields: seq<string>, lay: Layout, kind: FieldKind, k: nat)
    requires OrderedInside(lay) && lay.procnameIdx < |fields|
    requires k < |Values(ReadNames(fields, lay), kind)|
    ensures 0 <= Start(lay, kind) + k < |fields|
    ensures Values(ReadNames(fields, lay), kind)[k] == fields[Start(lay, kind) + k]
  {
  }

  /** The extraction part of `get_process_name`: the process-name field and the
      three slices of state, web-input and timer names. A short list gives
      short slices, but a list without the process-name field is an error. */
  function GetProcessName(fields: seq<string>, processNum: int): (r: Result<ProcessNames>)
    ensures r.Ok? <==> 0 <= processNum < ProcessCount && RunStart(processNum, ProcessName) < |fields|
    ensures !(0 <= processNum < ProcessCount) ==> r == Err(ProcessNumberOutOfRange(processNum))
    ensures 0 <= processNum < ProcessCount && r.Err? ==> r.error == IndexOutOfRange
    ensures r.Ok? && AddressedLength <= |fields| ==> FullWidth(r.value)
  {
    match NameFields(processNum)
    case Err(e) => Err(e)
    case Ok(lay) =>
      if lay.procnameIdx < |fields| then Ok(ReadNames(fields, lay)) else Err(IndexOutOfRange)
  }

  /** Every name `get_process_name` returns is the field at that name's address. */
  lemma GetProcessNameReads(fields: seq<string>, processNum: int, kind: FieldKind, k: nat)
    requires GetProcessName(fields, processNum).Ok?
    requires k < |Values(GetProcessName(fields, processNum).value, kind)|
    ensures k < Width(kind) && Address(FieldRef(processNum, kind, k)) < |fields|
    ensures Values(GetProcessName(fields, processNum).value, kind)[k] == fields[Address(FieldRef(processNum, kind, k))]
  {
    var lay := NameFields(processNum).value;
    assert GetProcessName(fields, processNum).value == ReadNames(fields, lay);
    ReadNamesAt(fields, lay, kind, k);
    assert k < Width(kind);
    assert Address(FieldRef(processNum, kind, k)) == Start(lay, kind) + k;
  }

  /** On a list that reaches past the last name field, `get_process_name`
      returns every name of the process, each read at its address. */
  lemma GetProcessNameFull(fields: seq<string>, processNum: int, kind: FieldKind, k: nat)
    requires 0 <= processNum < ProcessCount && AddressedLength <= |fields|
    requires k < Width(kind)
    ensures GetProcessName(fields, processNum).Ok?
    ensures |Values(GetProcessName(fields, processNum).value, kind)| == Width(kind)
    ensures Values(GetProcessName(fields, processNum).value, kind)[k] == fields[Address(FieldRef(processNum, kind, k))]
  {
    GetProcessNameReads(fields, processNum, kind, k);
  }

  /** Two lists read the same slice for the run of `kind` of a process. */
  predicate SameSlice(a: seq<string>, b: seq<string>, processNum: int, kind: FieldKind)
    requires 0 <= processNum < ProcessCount
  {
    Slice(a, RunStart(processNum, kind), RunStart(processNum, kind) + Width(kind))
    == Slice(b, RunStart(processNum, kind), RunStart(processNum, kind) + Width(kind))
  }

  /** Two equally long lists that agree on the name field and the three
      slices of a process read the same names for it. */
  lemma SameReads(a: seq<string>, b: seq<string>, processNum: int)
    requires 0 <= processNum < ProcessCount && |a| == |b|
    requires RunStart(processNum, ProcessName) < |a| ==>
               a[RunStart(processNum, ProcessName)] == b[RunStart(processNum, ProcessName)]
               && SameSlice(a, b, processNum, StateName)
               && SameSlice(a, b, processNum, WebInputName)
               && SameSlice(a, b, processNum, TimerName)
    ensures GetProcessName(a, processNum) == GetProcessName(b, processNum)
  {
  }

  // ---------------------------------------------------------------------------
  // set_process_name
  // ---------------------------------------------------------------------------

  /** How many assignments `zip(range(start, start + width), vals)` makes. */
  function Written(vals: seq<string>, width: nat): nat {
    Min(|vals|, width)
  }

  /** The assignments of one `zip` loop stay inside a list of length `n`, so
      none of them raises IndexError. */
  predicate RunFits(n: nat, start: int, count: nat) {
    count == 0 || start + count <= n
  }

  /** One `for idx, value in zip(...)` loop of `set_process_name`: the first
      `width` names (or all of them, if fewer) overwrite consecutive fields
      from `start` on, one assignment at a time. */
  function Overwrite(s: seq<string>, start: nat, vals: seq<string>, width: nat): (r: seq<string>)
    requires RunFits(|s|, start, Written(vals, width))
    ensures |r| == |s|
    ensures forall i :: 0 <= i < |s| ==>
              r[i] == if start <= i < start + Written(vals, width) then vals[i - start] else s[i]
    decreases width
  {
    if width == 0 || vals == [] then s
    else Overwrite(s[start := vals[0]], start + 1, vals[1..], width - 1)
  }

  /** None of the assignments of `set_process_name` for a layout falls outside
      a list of length `n`. */
  predicate SpliceFits(n: nat, lay: Layout, names: ProcessNames): (fits: bool)
    ensures OrderedInside(lay) && AddressedLength <= n ==> fits
  {
    0 <= lay.procnameIdx < n
    && RunFits(n, lay.stateStart, Written(names.stateNames, StateNameCount))
    && RunFits(n, lay.winStart, Written(names.webInputNames, WebInputNameCount))
    && RunFits(n, lay.timerStart, Written(names.timerNames, TimerNameCount))
  }

  /** Index `i` receives one of the names written for the run of `kind`. */
  predicate Touched(lay: Layout, names: ProcessNames, kind: FieldKind, i: int) {
    Start(lay, kind) <= i < Start(lay, kind) + Written(Values(names, kind), Width(kind))
  }

  /** The name `set_process_name` writes to index `i`, if it writes one there. */
  function WrittenAt(lay: Layout, names: ProcessNames, i: int): Option<string> {
    if Touched(lay, names, ProcessName, i) then Some(names.processName)
    else if Touched(lay, names, StateName, i) then Some(names.stateNames[i - lay.stateStart])
    else if Touched(lay, names, WebInputName, i) then Some(names.webInputNames[i - lay.winStart])
    else if Touched(lay, names, TimerName, i) then Some(names.timerNames[i - lay.timerStart])
    else None
  }

  /** The field list after `set_process_name`: each field it writes a name to
      holds that name, every other field keeps its value. */
  function Splice(fields: seq<string>, lay: Layout, names: ProcessNames): (r: seq<string>)
    requires SpliceFits(|fields|, lay, names)
    ensures |r| == |fields|
  {
    seq(|fields|, i requires 0 <= i < |fields| =>
      match WrittenAt(lay, names, i)
      case Some(name) => name
      case None => fields[i])
  }

  /** The assignments of `set_process_name` in the order the source makes
      them: the process name, then the three `zip` loops. */
  function SpliceInOrder(fields: seq<string>, lay: Layout, names: ProcessNames): (r: seq<string>)
    requires OrderedInside(lay) && SpliceFits(|fields|, lay, names)
    ensures |r| == |fields|
    ensures r[lay.procnameIdx] == names.processName
  {
    var named := fields[lay.procnameIdx := names.processName];
    var stated := Overwrite(named, lay.stateStart, names.stateNames, StateNameCount);
    var webbed := Overwrite(stated, lay.winStart, names.webInputNames, WebInputNameCount);
    Overwrite(webbed, lay.timerStart, names.timerNames, TimerNameCount)
  }

  /** Because the four runs of a layout do not overlap, no assignment of a
      later loop undoes one of an earlier: at every index the assignments in
      source order leave what the splice prescribes. */
  lemma SpliceInOrderAt(fields: seq<string>, lay: Layout, names: ProcessNames, i: nat)
    requires OrderedInside(lay) && SpliceFits(|fields|, lay, names)
    requires i < |fields|
    ensures |SpliceInOrder(fields, lay, names)| == |fields|
    ensures SpliceInOrder(fields, lay, names)[i] == Splice(fields, lay, names)[i]
  {
  }

  /** The assignments in source order produce the splice. */
  lemma SpliceInOrderIsSplice(fields: seq<string>, lay: Layout, names: ProcessNames)
    requires OrderedInside(lay) && SpliceFits(|fields|, lay, names)
    ensures SpliceInOrder(fields, lay, names) == Splice(fields, lay, names)
  {
    var inOrder := SpliceInOrder(fields, lay, names);
    var spliced := Splice(fields, lay, names);
    assert |inOrder| == |spliced| by {
      if |fields| > 0 {
        SpliceInOrderAt(fields, lay, names, 0);
      }
    }
    forall i | 0 <= i < |fields| ensures inOrder[i] == spliced[i] {
      SpliceInOrderAt(fields, lay, names, i);
    }
  }

  /** After the splice, each field of the process that a name was supplied for
      holds that name. */
  lemma SpliceWrites(fields: seq<string>, lay: Layout, names: ProcessNames, kind: FieldKind, k: nat)
    requires OrderedInside(lay) && SpliceFits(|fields|, lay, names)
    requires k < Written(Values(names, kind), Width(kind))
    ensures 0 <= Start(lay, kind) + k < |fields|
    ensures Splice(fields, lay, names)[Start(lay, kind) + k] == Values(names, kind)[k]
  {
  }

  /** The splice changes no field outside the ones it writes: not the fields of
      other processes, not the unnamed fields, and not the slots past the end
      of a list shorter than its run. */
  lemma SpliceFrame(fields: seq<string>, lay: Layout, names: ProcessNames, i: nat)
    requires SpliceFits(|fields|, lay, names)
    requires i < |fields|
    requires forall kind :: !Touched(lay, names, kind, i)
    ensures Splice(fields, lay, names)[i] == fields[i]
  {
    assert !Touched(lay, names, ProcessName, i);
    assert !Touched(lay, names, StateName, i);
    assert !Touched(lay, names, WebInputName, i);
    assert !Touched(lay, names, TimerName, i);
  }

  /** The splice leaves every field outside the runs of its layout unchanged. */
  lemma SpliceOutsideRuns(fields: seq<string>, lay: Layout, names: ProcessNames, i: nat)
    requires SpliceFits(|fields|, lay, names)
    requires i < |fields|
    requires forall kind :: !InRun(lay, kind, i)
    ensures Splice(fields, lay, names)[i] == fields[i]
  {
    forall kind ensures !Touched(lay, names, kind, i) {
      assert !InRun(lay, kind, i);
    }
    SpliceFrame(fields, lay, names, i);
  }

  /** A slice over a range that lies inside the list and holds `vals` is `vals`. */
  lemma SliceOfRun(a: seq<string>, start: nat, vals: seq<string>)
    requires start + |vals| <= |a|
    requires forall k :: 0 <= k < |vals| ==> a[start + k] == vals[k]
    ensures Slice(a, start, start + |vals|) == vals
  {
  }

  /** Slices of two equally long lists that agree on the sliced range are equal. */
  lemma SliceAgree(a: seq<string>, b: seq<string>, lo: nat, hi: nat)
    requires lo <= hi && |a| == |b|
    requires forall i :: lo <= i < hi && i < |a| ==> a[i] == b[i]
    ensures Slice(a, lo, hi) == Slice(b, lo, hi)
  {
  }

  /** Every name of a run lands at its place in the run. */
  lemma SpliceWritesRun(fields: seq<string>, lay: Layout, names: ProcessNames, kind: FieldKind)
    requires OrderedInside(lay) && SpliceFits(|fields|, lay, names)
    ensures Start(lay, kind) >= 0
    ensures Written(Values(names, kind), Width(kind)) > 0 ==>
              Start(lay, kind) + Written(Values(names, kind), Width(kind)) <= |fields|
    ensures forall k :: 0 <= k < Written(Values(names, kind), Width(kind)) ==>
              Splice(fields, lay, names)[Start(lay, kind) + k] == Values(names, kind)[k]
  {
    forall k | 0 <= k < Written(Values(names, kind), Width(kind))
      ensures Splice(fields, lay, names)[Start(lay, kind) + k] == Values(names, kind)[k]
    {
      SpliceWrites(fields, lay, names, kind, k);
    }
  }

  /** A run written with a full-width list reads back as that list. */
  lemma SpliceRunReadsBack(fields: seq<string>, lay: Layout, names: ProcessNames, kind: FieldKind)
    requires OrderedInside(lay) && SpliceFits(|fields|, lay, names)
    requires |Values(names, kind)| == Width(kind)
    ensures Slice(Splice(fields, lay, names), Start(lay, kind), Start(lay, kind) + Width(kind)) == Values(names, kind)
  {
    SpliceWritesRun(fields, lay, names, kind);
    SliceOfRun(Splice(fields, lay, names), Start(lay, kind), Values(names, kind));
  }

  /** Round trip: names written with full-width lists are read back unchanged. */
  lemma SpliceThenGet(fields: seq<string>, processNum: int, names: ProcessNames)
    requires 0 <= processNum < ProcessCount
    requires SpliceFits(|fields|, NameFields(processNum).value, names)
    requires FullWidth(names)
    ensures GetProcessName(Splice(fields, NameFields(processNum).value, names), processNum) == Ok(names)
  {
    var lay := NameFields(processNum).value;
    SpliceWrites(fields, lay, names, ProcessName, 0);
    SpliceRunReadsBack(fields, lay, names, StateName);
    SpliceRunReadsBack(fields, lay, names, WebInputName);
    SpliceRunReadsBack(fields, lay, names, TimerName);
  }

  /** Writing back the names just read leaves index `i` as it was. */
  lemma GetThenSpliceAt(fields: seq<string>, lay: Layout, i: nat)
    requires OrderedInside(lay) && lay.procnameIdx < |fields|
    requires i < |fields|
    ensures SpliceFits(|fields|, lay, ReadNames(fields, lay))
    ensures Splice(fields, lay, ReadNames(fields, lay))[i] == fields[i]
  {
    var names := ReadNames(fields, lay);
    if kind :| Touched(lay, names, kind, i) {
      var k := i - Start(lay, kind);
      ReadNamesAt(fields, lay, kind, k);
      SpliceWrites(fields, lay, names, kind, k);
    } else {
      SpliceFrame(fields, lay, names, i);
    }
  }

  /** Round trip the other way: writing back the names just read changes
      nothing, even on a list too short for full-width slices. */
  lemma GetThenSplice(fields: seq<string>, processNum: int)
    requires GetProcessName(fields, processNum).Ok?
    ensures SpliceFits(|fields|, NameFields(processNum).value, GetProcessName(fields, processNum).value)
    ensures Splice(fields, NameFields(processNum).value, GetProcessName(fields, processNum).value) == fields
  {
    var lay := NameFields(processNum).value;
    var spliced := Splice(fields, lay, ReadNames(fields, lay));
    forall i | 0 <= i < |fields| ensures spliced[i] == fields[i] {
      GetThenSpliceAt(fields, lay, i);
    }
    GetThenSpliceAt(fields, lay, lay.procnameIdx);
  }

  /** Writing the same names twice leaves the list as writing them once. */
  lemma SpliceIdempotent(fields: seq<string>, lay: Layout, names: ProcessNames)
    requires OrderedInside(lay) && SpliceFits(|fields|, lay, names)
    ensures SpliceFits(|Splice(fields, lay, names)|, lay, names)
    ensures Splice(Splice(fields, lay, names), lay, names) == Splice(fields, lay, names)
  {
    var once := Splice(fields, lay, names);
    var twice := Splice(once, lay, names);
    forall i | 0 <= i < |fields| ensures twice[i] == once[i] {
    }
  }

  /** Writing the names of process `p` leaves every field of another process
      `q` as it was. */
  lemma SpliceKeepsOtherRun(fields: seq<string>, p: int, q: int, names: ProcessNames, kind: FieldKind, i: nat)
    requires 0 <= p < ProcessCount && 0 <= q < ProcessCount && p != q
    requires SpliceFits(|fields|, NameFields(p).value, names)
    requires i < |fields| && InRun(NameFields(q).value, kind, i)
    ensures Splice(fields, NameFields(p).value, names)[i] == fields[i]
  {
    forall kindP ensures !InRun(NameFields(p).value, kindP, i) {
      ProcessesDisjoint(p, q, kindP, kind, i);
    }
    SpliceOutsideRuns(fields, NameFields(p).value, names, i);
  }

  /** Writing the names of process `p` leaves the slice another process `q`
      reads for `kind` as it was. */
  lemma SpliceKeepsOtherSlice(fields: seq<string>, p: int, q: int, names: ProcessNames, kind: FieldKind)
    requires 0 <= p < ProcessCount && 0 <= q < ProcessCount && p != q
    requires SpliceFits(|fields|, NameFields(p).value, names)
    ensures SameSlice(Splice(fields, NameFields(p).value, names), fields, q, kind)
  {
    var spliced := Splice(fields, NameFields(p).value, names);
    var start := RunStart(q, kind);
    forall i | start <= i < start + Width(kind) && i < |fields|
      ensures spliced[i] == fields[i]
    {
      SpliceKeepsOtherRun(fields, p, q, names, kind, i);
    }
    SliceAgree(spliced, fields, start, start + Width(kind));
  }

  /** Writing the names of one process leaves what every other process reads
      unchanged. */
  lemma SpliceKeepsOtherProcesses(fields: seq<string>, p: int, q: int, names: ProcessNames)
    requires 0 <= p < ProcessCount && 0 <= q < ProcessCount && p != q
    requires SpliceFits(|fields|, NameFields(p).value, names)
    ensures GetProcessName(Splice(fields, NameFields(p).value, names), q) == GetProcessName(fields, q)
  {
    var spliced := Splice(fields, NameFields(p).value, names);
    var n := RunStart(q, ProcessName);
    if n < |fields| {
      SpliceKeepsOtherRun(fields, p, q, names, ProcessName, n);
      SpliceKeepsOtherSlice(fields, p, q, names, StateName);
      SpliceKeepsOtherSlice(fields, p, q, names, WebInputName);
      SpliceKeepsOtherSlice(fields, p, q, names, TimerName);
    }
    SameReads(spliced, fields, q);
  }

  /** One `zip` loop of `set_process_name`, run in place on the field list. */
  method WriteRun(a: array<string>, start: nat, vals: seq<string>, width: nat)
    requires RunFits(a.Length, start, Written(vals, width))
    modifies a
    ensures a[..] == Overwrite(old(a[..]), start, vals, width)
  {
    var count := Written(vals, width);
    var k := 0;
    while k < count
      invariant 0 <= k <= count
      invariant forall i :: 0 <= i < a.Length ==>
                  a[i] == if start <= i < start + k then vals[i - start] else old(a[i])
    {
      a[start + k] := vals[k];
      k := k + 1;
    }
  }

  /** The splice part of `set_process_name`, in place on the field list. The
      list is left as it was when the process number is rejected or an
      assignment would fall outside it. */
  method SetProcessName(existing: array<string>, processNum: int, names: ProcessNames)
    returns (r: Result<()>)
    modifies existing
    ensures r.Ok? <==> 0 <= processNum < ProcessCount
                       && SpliceFits(existing.Length, NameFields(processNum).value, names)
    ensures r.Ok? ==> existing[..] == Splice(old(existing[..]), NameFields(processNum).value, names)
    ensures r.Err? ==> existing[..] == old(existing[..])
    ensures r.Err? ==> r.error == if 0 <= processNum < ProcessCount then IndexOutOfRange
                                  else ProcessNumberOutOfRange(processNum)
  {
    var layout := NameFields(processNum);
    if layout.Err? {
      return Err(layout.error);
    }
    var lay := layout.value;
    if !SpliceFits(existing.Length, lay, names) {
      return Err(IndexOutOfRange);
    }
    existing[lay.procnameIdx] := names.processName;
    WriteRun(existing, lay.stateStart, names.stateNames, StateNameCount);
    WriteRun(existing, lay.winStart, names.webInputNames, WebInputNameCount);
    WriteRun(existing, lay.timerStart, names.timerNames, TimerNameCount);
    assert existing[..] == SpliceInOrder(old(existing[..]), lay, names);
    SpliceInOrderIsSplice(old(existing[..]), lay, names);
    return Ok(());
  }
}
