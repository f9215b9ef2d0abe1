/**
 * The activity output accumulator: one mutable result cell that is either
 * unset, a plain object of named output fields, or any other value, and
 * that is committed to the shared environment only when `save` is called.
 */
module ElementPropertyIo {
  import opened JsValue

  /** The shared environment; only the arguments `assignResult` received are kept. */
  class Environment {
    var committed: seq<Value>

    constructor ()
      ensures committed == []
    {
      committed := [];
    }

    method AssignResult(result: Value)
      modifies this
      ensures committed == old(committed) + [result]
    {
      committed := committed + [result];
    }
  }

  /** The named fields a result cell already holds (none unless it is an object). */
  function FieldsOf(cell: Value): (fields: map<string, Value>) {
    if cell.Obj? then cell.fields else map[]
  }

  /** Whether `setOutputValue` can store a field into the cell: it is unset (falsy) or an object. */
  predicate CanHoldFields(cell: Value) {
    !Truthy(cell) || cell.Obj?
  }

  /**
   * The cell after `setOutputValue(name, value)`: a falsy cell is first
   * replaced by an empty object, then `name` is bound to `value`. A truthy
   * non-object cannot take a property in strict mode: the assignment throws
   * a TypeError, modelled as None.
   */
  function WithOutputValue(cell: Value, name: string, value: Value): (r: Option<Value>)
    ensures r.Some? <==> CanHoldFields(cell)
    ensures r.Some? ==> r.value.Obj? && name in r.value.fields && r.value.fields[name] == value
    ensures r.Some? ==> r.value.fields.Keys == FieldsOf(cell).Keys + {name}
    ensures r.Some? ==> forall k :: k in FieldsOf(cell) && k != name ==> r.value.fields[k] == FieldsOf(cell)[k]
  {
    var target := if Truthy(cell) then cell else Obj(map[]);
    if target.Obj? then Some(Obj(target.fields[name := value])) else None
  }

  /** `setOutputValue` applied to a cell that may already have failed. */
  function AndThen(r: Option<Value>, name: string, value: Value): (r': Option<Value>) {
    match r
    case None => None
    case Some(cell) => WithOutputValue(cell, name, value)
  }

  /** Setting two different fields gives the same result in either order. */
  lemma OutputValuesCommute(cell: Value, a: string, va: Value, b: string, vb: Value)
    requires a != b
    ensures AndThen(WithOutputValue(cell, a, va), b, vb) == AndThen(WithOutputValue(cell, b, vb), a, va)
  {
    if CanHoldFields(cell) {
      var m := FieldsOf(cell);
      assert m[a := va][b := vb] == m[b := vb][a := va];
    }
  }

  /** Setting the same field twice keeps only the second value. */
  lemma LastOutputValueWins(cell: Value, name: string, v1: Value, v2: Value)
    ensures AndThen(WithOutputValue(cell, name, v1), name, v2) == WithOutputValue(cell, name, v2)
  {
    if CanHoldFields(cell) {
      var m := FieldsOf(cell);
      assert m[name := v1][name := v2] == m[name := v2];
    }
  }

  /** A series of `setOutputValue` calls, in order. */
  function WithOutputValues(cell: Value, writes: seq<(string, Value)>): (r: Option<Value>) {
    if writes == [] then Some(cell)
    else
      var last := writes[|writes| - 1];
      AndThen(WithOutputValues(cell, writes[..|writes| - 1]), last.0, last.1)
  }

  /** No later write in the series names the same field as write i. */
  predicate IsLastWrite(writes: seq<(string, Value)>, i: int)
    requires 0 <= i < |writes|
  {
    forall j :: i < j < |writes| ==> writes[j].0 != writes[i].0
  }

  /** The field names a series of writes mentions. */
  function Names(writes: seq<(string, Value)>): (names: set<string>) {
    set i | 0 <= i < |writes| :: writes[i].0
  }

  lemma NamesOfSnoc(writes: seq<(string, Value)>)
    requires writes != []
    ensures Names(writes) == Names(writes[..|writes| - 1]) + {writes[|writes| - 1].0}
  {
    var n := |writes| - 1;
    forall i | 0 <= i < n ensures writes[i].0 == writes[..n][i].0 { }
    assert forall k :: k in Names(writes[..n]) ==> k in Names(writes);
  }

  /**
   * After a series of writes to a cell that can hold fields, the result can
   * still hold fields (an object once anything was written); its fields are
   * the cell's old fields plus every written name; each written name holds
   * the value of its last write; every old field that was not written keeps
   * its value.
   */
  lemma {:induction false} OutputValuesAccumulate(cell: Value, writes: seq<(string, Value)>)
    requires CanHoldFields(cell)
    ensures WithOutputValues(cell, writes).Some?
    ensures CanHoldFields(WithOutputValues(cell, writes).value)
    ensures writes != [] ==> WithOutputValues(cell, writes).value.Obj?
    ensures FieldsOf(WithOutputValues(cell, writes).value).Keys == FieldsOf(cell).Keys + Names(writes)
    ensures forall k :: k in FieldsOf(cell) && k !in Names(writes) ==>
              FieldsOf(WithOutputValues(cell, writes).value)[k] == FieldsOf(cell)[k]
  {
    if writes != [] {
      var n := |writes| - 1;
      var init := writes[..n];
      var last := writes[n];
      OutputValuesAccumulate(cell, init);
      NamesOfSnoc(writes);
      var mid := WithOutputValues(cell, init).value;
      FieldsAfterWrite(mid, last.0, last.1);
      assert WithOutputValues(cell, writes) == WithOutputValue(mid, last.0, last.1);
      var before := FieldsOf(mid);
      var after := FieldsOf(WithOutputValues(cell, writes).value);
      assert after == before[last.0 := last.1];
      forall k | k in FieldsOf(cell) && k !in Names(writes)
        ensures after[k] == FieldsOf(cell)[k]
      {
        assert k != last.0 && k !in Names(init);
      }
    }
  }

  /** Each written name ends up holding the value of its last write. */
  lemma {:induction false} OutputValuesLastWriteWins(cell: Value, writes: seq<(string, Value)>)
    requires CanHoldFields(cell)
    ensures WithOutputValues(cell, writes).Some?
    ensures forall i :: 0 <= i < |writes| ==> writes[i].0 in FieldsOf(WithOutputValues(cell, writes).value)
    ensures forall i :: 0 <= i < |writes| && IsLastWrite(writes, i) ==>
              FieldsOf(WithOutputValues(cell, writes).value)[writes[i].0] == writes[i].1
  {
    OutputValuesAccumulate(cell, writes);
    if writes != [] {
      var n := |writes| - 1;
      var init := writes[..n];
      var last := writes[n];
      OutputValuesLastWriteWins(cell, init);
      OutputValuesAccumulate(cell, init);
      var mid := WithOutputValues(cell, init).value;
      FieldsAfterWrite(mid, last.0, last.1);
      assert WithOutputValues(cell, writes) == WithOutputValue(mid, last.0, last.1);
      var after := FieldsOf(WithOutputValues(cell, writes).value);
      assert after == FieldsOf(mid)[last.0 := last.1];
      forall i | 0 <= i < |writes| && IsLastWrite(writes, i)
        ensures after[writes[i].0] == writes[i].1
      {
        if i < n {
          assert writes[i] == init[i];
          assert IsLastWrite(init, i);
          assert writes[i].0 != last.0;
          assert after[writes[i].0] == FieldsOf(mid)[writes[i].0];
        } else {
          assert i == n;
        }
      }
    }
  }

  /** One write on a cell that can hold fields binds the name in its fields. */
  lemma FieldsAfterWrite(cell: Value, name: string, value: Value)
    requires CanHoldFields(cell)
    ensures WithOutputValue(cell, name, value) == Some(Obj(FieldsOf(cell)[name := value]))
  {
  }

  /** `ActivityIO(activity, parentContext)`: the per-activity input/output adapter. */
  class ActivityIO {
    const id: string
    const typeName: string
    const environment: Environment
    /** The accumulated result: `undefined` until something is set. */
    var resultData: Value

    constructor (activityId: string, activityType: string, environment: Environment)
      ensures id == activityId && typeName == "io:" + activityType
      ensures this.environment == environment
      ensures GetOutput() == Undefined
    {
      id := activityId;
      typeName := "io:" + activityType;
      this.environment := environment;
      resultData := Undefined;
    }

    /** `getInput`: the message is the input, unchanged. */
    function GetInput(message: Value): (input: Value)
      ensures input == message
    {
      message
    }

    /** `getOutput`: the accumulated result as it stands. */
    function GetOutput(): (out: Value)
      reads this
      ensures out == resultData
    {
      resultData
    }

    /**
     * `setOutputValue(name, value)`: initialise an unset (falsy) result to
     * an empty object, then store the field in place. `ok` is false when
     * the result is a truthy non-object and the store throws.
     */
    method SetOutputValue(name: string, value: Value) returns (ok: bool)
      modifies this`resultData
      ensures ok <==> CanHoldFields(old(resultData))
      ensures WithOutputValue(old(resultData), name, value) == if ok then Some(resultData) else None
      ensures !ok ==> resultData == old(resultData)
    {
      if !Truthy(resultData) {
        resultData := Obj(map[]);
      }
      if !resultData.Obj? {
        return false;
      }
      resultData := Obj(resultData.fields[name := value]);
      ok := true;
    }

    /** `setResult(value)`: replace the whole result. */
    method SetResult(value: Value)
      modifies this`resultData
      ensures GetOutput() == value
    {
      resultData := value;
    }

    /** `save`: hand the current result to the environment, leaving it as it was. */
    method Save()
      modifies environment
      ensures environment.committed == old(environment.committed) + [GetOutput()]
      ensures resultData == old(resultData)
    {
      environment.AssignResult(resultData);
    }
  }
}
