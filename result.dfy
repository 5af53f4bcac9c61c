/** `Result`: an immutable success/warning/error outcome with a message, an
    optional payload and optional error details, and its conversions to and
    from a plain transport mapping. */
module Results {
  import opened PyValues
  import ImmutableDict

  /** The class name `to_dict` writes. */
  const ClassNameOut := "lava.utils.Result"
  /** The class name `from_dict` demands. */
  const ClassNameIn := "lava_core.utils.Result"
  const InvalidSource := "Invalid source dict."

  /** The attributes a Result carries. `isError` and `isWarning` are computed
      once, when the Result is built, from the resolved tag. */
  datatype Result = Result(
    isSuccess: bool,
    message: PyValue,
    instance: PyValue,
    errors: PyValue,
    tag: PyValue,
    isError: bool,
    isWarning: bool,
    errorCode: PyValue)
  {
    /** What construction guarantees: the tag is never falsy and the derived
        flags agree with it. */
    predicate Valid() {
      && Truthy(tag)
      && isError == (tag == PyStr("error"))
      && isWarning == (tag == PyStr("warning"))
    }
  }

  /** The tag a Result gets when the one supplied is falsy. */
  function DefaultTag(success: bool): PyValue {
    PyStr(if success then "success" else "error")
  }

  /** The general constructor `Result(success, message, instance, errors, tag, error_code)`. */
  function New(success: bool, message: PyValue := PyStr(""), instance: PyValue := PyNone,
               errors: PyValue := PyNone, tag: PyValue := PyNone, errorCode: PyValue := PyNone): (r: Result)
    ensures r.Valid()
    ensures Truthy(tag) ==> r.tag == tag
    ensures !Truthy(tag) ==> (r.tag == PyStr("success") <==> success) && (r.tag == PyStr("error") <==> !success)
    ensures r.isSuccess == success && r.message == message && r.instance == instance
    ensures r.errors == errors && r.errorCode == errorCode
  {
    var resolved := if Truthy(tag) then tag else DefaultTag(success);
    Result(success, message, instance, errors, resolved,
           resolved == PyStr("error"), resolved == PyStr("warning"), errorCode)
  }

  /** `Result.success(message, instance)`. */
  function Success(message: PyValue := PyStr(""), instance: PyValue := PyNone): (r: Result)
    ensures r.Valid()
    ensures r.isSuccess && r.tag == PyStr("success") && !r.isError && !r.isWarning
    ensures r.errors == PyNone && r.errorCode == PyNone
    ensures r.message == message && r.instance == instance
  {
    New(true, message, instance)
  }

  /** `Result.warning(message, instance, error_code)`. */
  function Warning(message: PyValue := PyStr(""), instance: PyValue := PyNone,
                   errorCode: PyValue := PyStr("")): (r: Result)
    ensures r.Valid()
    ensures !r.isSuccess && r.tag == PyStr("warning") && r.isWarning && !r.isError
    ensures r.errors == PyNone && r.errorCode == errorCode
    ensures r.message == message && r.instance == instance
  {
    New(false, message, instance, tag := PyStr("warning"), errorCode := errorCode)
  }

  /** `Result.error(message, instance, errors, error_code)`. */
  function Error(message: PyValue := PyStr(""), instance: PyValue := PyNone,
                 errors: PyValue := PyNone, errorCode: PyValue := PyStr("")): (r: Result)
    ensures r.Valid()
    ensures !r.isSuccess && r.tag == PyStr("error") && r.isError && !r.isWarning
    ensures r.errors == errors && r.errorCode == errorCode
    ensures r.message == message && r.instance == instance
  {
    New(false, message, instance, errors, PyNone, errorCode)
  }

  /** A Result built by one of the three named constructors. */
  predicate FromNamedConstructor(r: Result) {
    || r == Success(r.message, r.instance)
    || r == Warning(r.message, r.instance, r.errorCode)
    || r == Error(r.message, r.instance, r.errors, r.errorCode)
  }

  /** The dictionary a Result is, as the `imdict` base class holds it. */
  function Mapping(r: Result): (d: map<string, PyValue>)
    ensures d.Keys == {"is_success", "message", "errors"}
    ensures d["is_success"] == PyBool(r.isSuccess)
    ensures d["message"] == r.message && d["errors"] == r.errors
  {
    map["is_success" := PyBool(r.isSuccess), "message" := r.message, "errors" := r.errors]
  }

  /** The tag, payload and error code are attributes only: the dictionary
      view of a Result never holds them. */
  lemma MappingOmitsAttributes(r: Result)
    ensures "tag" !in Mapping(r) && "instance" !in Mapping(r) && "error_code" !in Mapping(r)
  {
  }

  /** However many of the overridden mutators are tried on a Result, its
      dictionary stays the one its constructor built, and each call raises
      `TypeError`. */
  lemma MappingFrozen(r: Result, ops: seq<ImmutableDict.Mutator>)
    ensures ImmutableDict.Replay(Mapping(r), ops).0 == Mapping(r)
    ensures |ImmutableDict.Replay(Mapping(r), ops).1| == |ops|
    ensures forall i :: 0 <= i < |ops| ==>
      ImmutableDict.Replay(Mapping(r), ops).1[i].Raised? &&
      ImmutableDict.Replay(Mapping(r), ops).1[i].exc.TypeError?
  {
    ImmutableDict.ReplayLeavesContents(Mapping(r), ops);
  }

  /** Python's `str(message)`, which the model does not define, is a parameter. */
  type Str = PyValue -> string

  /** What Python's `str` does on a string: it gives the string back. */
  ghost predicate KeepsStrings(str: Str) {
    forall s: string :: str(PyStr(s)) == s
  }

  /** The `"result"` field `to_dict` writes. */
  function ReportedResult(r: Result): string {
    if r.isWarning then "warning" else if r.isSuccess then "success" else "error"
  }

  /** `Result.to_dict()`. */
  function ToDict(r: Result, str: Str): (d: map<string, PyValue>)
    ensures d.Keys == {"class_name", "result", "message"}
                      + (if r.isSuccess then {} else {"errors", "error_code"})
                      + (if Truthy(r.instance) then {"object"} else {})
    ensures d["class_name"] == PyStr(ClassNameOut)
    ensures d["result"] == PyStr(ReportedResult(r))
    ensures d["message"] == PyStr(str(r.message))
    ensures !r.isSuccess ==> d["errors"] == (if Truthy(r.errors) then r.errors else PyList([]))
    ensures !r.isSuccess ==> d["error_code"] == r.errorCode
    ensures Truthy(r.instance) ==> d["object"] == r.instance
  {
    var base := map["class_name" := PyStr(ClassNameOut), "result" := PyStr(ReportedResult(r)),
                     "message" := PyStr(str(r.message))];
    var withErrors := if r.isSuccess then base
                      else base["errors" := if Truthy(r.errors) then r.errors else PyList([])]
                                ["error_code" := r.errorCode];
    if Truthy(r.instance) then withErrors["object" := r.instance] else withErrors
  }

  /** The reported result is always one of the three tags: `"warning"`
      exactly for warnings, otherwise decided by the success flag alone. */
  lemma ReportedResultCases(r: Result)
    requires r.Valid()
    ensures ReportedResult(r) in {"success", "warning", "error"}
    ensures ReportedResult(r) == "warning" <==> r.tag == PyStr("warning")
    ensures r.tag != PyStr("warning") ==> (ReportedResult(r) == "success" <==> r.isSuccess)
  {
  }

  /** For the Results the named constructors build, `to_dict` reports the tag
      itself. A Result built directly as `Result(True, tag="error")` is
      reported as `"success"`, so this does not hold of every Result. */
  lemma ReportedResultIsTag(r: Result)
    requires FromNamedConstructor(r)
    ensures PyStr(ReportedResult(r)) == r.tag
  {
  }

  /** A success given the tag `"error"` is flagged as an error yet reported
      as a success. */
  lemma SuccessWithErrorTagReportsSuccess()
    ensures New(true, tag := PyStr("error")).isError
    ensures ReportedResult(New(true, tag := PyStr("error"))) == "success"
  {
  }

  /** `Result.from_dict(source)`. */
  function FromDict(source: map<string, PyValue>): (o: Outcome<Result>)
    ensures o.Raised? <==> ("result" !in source || "message" !in source
                            || "class_name" !in source || source["class_name"] != PyStr(ClassNameIn))
    ensures o.Raised? ==> o.exc == TypeError(InvalidSource)
    ensures o.Returned? ==>
      && o.value.Valid()
      && o.value.isSuccess == (source["result"] == PyStr("success"))
      && (Truthy(source["result"]) ==> o.value.tag == source["result"])
      && (!Truthy(source["result"]) ==> o.value.tag == PyStr("error"))
      && o.value.message == source["message"]
      && o.value.instance == (if "instance" in source then source["instance"] else PyNone)
      && o.value.errors == (if "errors" in source then source["errors"] else PyNone)
      && o.value.errorCode == (if "error_code" in source then source["error_code"] else PyNone)
  {
    if "result" !in source || "message" !in source
       || GetOr(source, "class_name", PyStr("")) != PyStr(ClassNameIn)
    then Raised(TypeError(InvalidSource))
    else
      var tag := source["result"];
      var isSuccess := tag == PyStr("success");
      Returned(New(isSuccess, source["message"], GetOr(source, "instance", PyNone),
                   GetOr(source, "errors", PyNone), tag, GetOr(source, "error_code", PyNone)))
  }

  /** `to_dict` and `from_dict` disagree on the class name, so no mapping
      `to_dict` produces is ever accepted back. */
  lemma ToDictNeverAccepted(r: Result, str: Str)
    ensures FromDict(ToDict(r, str)) == Raised(TypeError(InvalidSource))
  {
  }

  /** The output of `to_dict` with its class name replaced by the one
      `from_dict` expects. */
  function Patched(r: Result, str: Str): map<string, PyValue> {
    ToDict(r, str)["class_name" := PyStr(ClassNameIn)]
  }

  /** Even past the class name, the payload does not survive the trip:
      `to_dict` writes it under `"object"`, `from_dict` reads `"instance"`.
      Falsy error details of a non-success come back as `[]`, not None (a
      warning's `errors` among them). For Results from the named
      constructors the success flag, the tag and the error code do come
      back, and a string message too when `str` keeps strings. */
  lemma PatchedRoundTrip(r: Result, str: Str)
    requires FromNamedConstructor(r)
    ensures FromDict(Patched(r, str)).Returned?
    ensures FromDict(Patched(r, str)).value.instance == PyNone
    ensures FromDict(Patched(r, str)).value.isSuccess == r.isSuccess
    ensures FromDict(Patched(r, str)).value.tag == r.tag
    ensures FromDict(Patched(r, str)).value.message == PyStr(str(r.message))
    ensures KeepsStrings(str) && r.message.PyStr? ==> FromDict(Patched(r, str)).value.message == r.message
    ensures FromDict(Patched(r, str)).value.errorCode == r.errorCode
    ensures FromDict(Patched(r, str)).value.errors
            == (if r.isSuccess || Truthy(r.errors) then r.errors else PyList([]))
  {
    var d := Patched(r, str);
    ReportedResultIsTag(r);
    assert d["result"] == r.tag;
    assert "instance" !in d;
  }

  /** A truthy payload is written under `"object"` and comes back from the
      patched round trip as None. */
  lemma PayloadLost(r: Result, str: Str)
    requires FromNamedConstructor(r) && Truthy(r.instance)
    ensures "object" in ToDict(r, str) && ToDict(r, str)["object"] == r.instance
    ensures FromDict(Patched(r, str)).Returned?
    ensures FromDict(Patched(r, str)).value.instance == PyNone
  {
    PatchedRoundTrip(r, str);
  }

  /** Every warning's absent error details come back as an empty list. */
  lemma WarningErrorsBecomeEmptyList(message: PyValue, instance: PyValue, errorCode: PyValue, str: Str)
    ensures Warning(message, instance, errorCode).errors == PyNone
    ensures FromDict(Patched(Warning(message, instance, errorCode), str)).Returned?
    ensures FromDict(Patched(Warning(message, instance, errorCode), str)).value.errors == PyList([])
  {
    PatchedRoundTrip(Warning(message, instance, errorCode), str);
  }

  /** The error and warning flags are never both set. */
  lemma FlagsExclusive(r: Result)
    requires r.Valid()
    ensures !(r.isError && r.isWarning)
  {
  }

  /** With a falsy tag (None, `""`, ...), a Result is an error exactly when
      it is not a success, and is never a warning. */
  lemma DefaultTagFlags(success: bool, message: PyValue, instance: PyValue, errors: PyValue,
                        tag: PyValue, errorCode: PyValue)
    requires !Truthy(tag)
    ensures New(success, message, instance, errors, tag, errorCode).isError == !success
    ensures !New(success, message, instance, errors, tag, errorCode).isWarning
  {
  }

  /** An error with details serialises to exactly five keys, the details
      and code included and no payload. */
  lemma ErrorToDictExample(str: Str)
    requires str(PyStr("x")) == "x"
    ensures ToDict(Error(PyStr("x"), errors := PyDict(map["a" := PyInt(1)]), errorCode := PyStr("E1")), str)
            == map["class_name" := PyStr(ClassNameOut), "result" := PyStr("error"), "message" := PyStr("x"),
                   "errors" := PyDict(map["a" := PyInt(1)]), "error_code" := PyStr("E1")]
  {
    var r := Error(PyStr("x"), errors := PyDict(map["a" := PyInt(1)]), errorCode := PyStr("E1"));
    assert "a" in map["a" := PyInt(1)];
    assert Truthy(r.errors) && !Truthy(r.instance);
    var d := ToDict(r, str);
    assert d.Keys == {"class_name", "result", "message", "errors", "error_code"};
  }

  /** A plain success serialises to its class name, result and message only. */
  lemma SuccessToDictExample(str: Str)
    requires str(PyStr("ok")) == "ok"
    ensures ToDict(Success(PyStr("ok")), str)
            == map["class_name" := PyStr(ClassNameOut), "result" := PyStr("success"), "message" := PyStr("ok")]
  {
  }

  /** A warning without error details still serialises `"errors"`, as `[]`. */
  lemma WarningToDictExample(str: Str)
    ensures ToDict(Warning(), str)["errors"] == PyList([])
    ensures ToDict(Warning(), str)["error_code"] == PyStr("")
    ensures ToDict(Warning(), str)["result"] == PyStr("warning")
  {
  }

  /** A mapping with the wrong or no class name is refused. */
  lemma FromDictClassNameExample()
    ensures FromDict(map["class_name" := PyStr("wrong"), "result" := PyStr("success"), "message" := PyStr("ok")]).Raised?
    ensures FromDict(map["result" := PyStr("success"), "message" := PyStr("ok")]).Raised?
    ensures FromDict(map["class_name" := PyStr(ClassNameIn), "result" := PyStr("success"), "message" := PyStr("ok")])
            == Returned(Success(PyStr("ok")))
  {
  }
}
