/** The `register` target: the last value written, and a log of every write. */
module Register {
  import opened Types

  datatype RegisterState = RegisterState(current: u64, log: seq<u64>, setCount: u32)

  datatype RegisterCall = Set(value: u64) | Reset

  const EMPTY := RegisterState(0, [], 0)

  // What a call leaves, or None when it panics: `set_count += 1` is checked.
  function After(r: RegisterState, c: RegisterCall): Option<RegisterState> {
    match c
    case Set(v) =>
      if r.setCount + 1 >= U32_LIMIT then None else Some(RegisterState(v, r.log + [v], r.setCount + 1))
    case Reset => Some(EMPTY)
  }

  // A call that panics is rolled back.
  function Apply(r: RegisterState, c: RegisterCall): RegisterState {
    match After(r, c) case Some(r') => r' case None => r
  }

  function Replay(calls: seq<RegisterCall>): RegisterState {
    if |calls| == 0 then EMPTY else Apply(Replay(calls[..|calls| - 1]), calls[|calls| - 1])
  }

  // The three fields agree: the count counts the log, and the current value is its last entry.
  ghost predicate Consistent(r: RegisterState) {
    && r.setCount == |r.log|
    && r.current == if |r.log| > 0 then r.log[|r.log| - 1] else 0
  }

  class Register {
    var current: u64
    var log: seq<u64>
    var setCount: u32

    function State(): RegisterState
      reads this
    {
      RegisterState(current, log, setCount)
    }

    constructor ()
      ensures State() == EMPTY
    {
      current, log, setCount := 0, [], 0;
    }

    method Set(value: u64) returns (panicked: bool)
      modifies this
      ensures panicked <==> After(old(State()), RegisterCall.Set(value)) == None
      ensures !panicked ==> Some(State()) == After(old(State()), RegisterCall.Set(value))
    {
      current := value;
      log := log + [value];
      if setCount + 1 >= U32_LIMIT {
        return true;
      }
      setCount := setCount + 1;
      panicked := false;
    }

    method Get() returns (value: u64, values: seq<u64>, count: u32)
      ensures RegisterState(value, values, count) == State()
    {
      value, values, count := current, log, setCount;
    }

    method Clear()
      modifies this
      ensures State() == EMPTY
    {
      current := 0;
      log := [];
      setCount := 0;
    }

    // One receipt: what a panicking call wrote is rolled back.
    method Receipt(call: RegisterCall) returns (panicked: bool)
      modifies this
      ensures State() == Apply(old(State()), call)
      ensures panicked <==> After(old(State()), call) == None
      ensures Consistent(old(State())) ==> Consistent(State())
    {
      match call
      case Set(value) =>
        var was := State();
        panicked := Set(value);
        if panicked {
          current, log, setCount := was.current, was.log, was.setCount;
        }
      case Reset =>
        Clear();
        panicked := false;
    }
  }

  lemma AfterConsistent(r: RegisterState, c: RegisterCall)
    requires Consistent(r)
    ensures Consistent(Apply(r, c))
  {
  }

  // The values written since the last reset.
  function Written(calls: seq<RegisterCall>): seq<u64> {
    if |calls| == 0 then [] else
    match calls[|calls| - 1]
    case Set(v) => Written(calls[..|calls| - 1]) + [v]
    case Reset => []
  }

  // Whatever calls reach it, the register's fields agree, and its log is the values written since the last
  // reset, up to the last one that the counter can count.
  lemma {:induction false} LogIsWritten(calls: seq<RegisterCall>)
    ensures Consistent(Replay(calls))
    ensures var r, written := Replay(calls), Written(calls);
            r.log == if |written| < U32_LIMIT then written else written[..U32_LIMIT - 1]
  {
    if |calls| > 0 {
      LogIsWritten(calls[..|calls| - 1]);
    }
  }

  // `n` writes in a row, none of which overflows the counter.
  function Sets(r: RegisterState, values: seq<u64>): RegisterState {
    if |values| == 0 then r else Apply(Sets(r, values[..|values| - 1]), Set(values[|values| - 1]))
  }

  // The writes that fit the counter are appended in order; those after them fail.
  lemma {:induction false} SetsAppend(r: RegisterState, values: seq<u64>)
    requires Consistent(r)
    ensures Consistent(Sets(r, values))
    ensures var room := U32_LIMIT - 1 - |r.log|;
            Sets(r, values).log == r.log + if |values| <= room then values else values[..room]
  {
    if |values| > 0 {
      SetsAppend(r, values[..|values| - 1]);
    }
  }
}
