/** Building an execution request from the host's request object: `module`,
    `arguments` and `timeout` are taken when their lookup is not empty,
    `function` is mandatory and must be text. The built request is handed to
    a continuation, which is never invoked when validation fails. */
module RequestBuilder {
  import opened Wrappers
  import opened JsValues

  datatype ExecuteRequest = ExecuteRequest(
    moduleName: string,
    functionName: string,
    arguments: seq<string>,
    timeout: uint32)

  /** A default-constructed request: every field empty, timeout 0. */
  const DEFAULT_REQUEST := ExecuteRequest("", "", [], 0)

  const FUNCTION_MISSING := "function property is missing in execution request object"
  const FUNCTION_NOT_STRING := "function property in execution request object must be a string"

  // ---------------------------------------------------------------------
  // Argument texts and their lifetime
  //
  // The request holds non-owning views (pointer and length) into the texts
  // of the converted `arguments` vector. A view reads its text only while the
  // buffer it points into is alive.

  /** A non-owning view into the text buffer numbered `buffer`. */
  datatype StringRef = StringRef(buffer: nat)

  /** The texts the views show, given the buffers alive at that moment, or
      None when some view points into a buffer already released. */
  function Resolve(views: seq<StringRef>, live: map<nat, string>): Option<seq<string>>
  {
    if forall i :: 0 <= i < |views| ==> views[i].buffer in live
    then Some(seq(|views|, i requires 0 <= i < |views| && views[i].buffer in live => live[views[i].buffer]))
    else None
  }

  function ArgumentTexts(elems: seq<JsValue>): seq<string>
  {
    seq(|elems|, i requires 0 <= i < |elems| => ToUtf8(elems[i]))
  }

  /** The argument views as the source makes them: the converted vector is
      local to the `if` block, so its buffers are released at the block's
      end, before the request is handed on. Returns the views and the
      buffers still alive when the continuation runs. */
  method ArgumentViewsAsWritten(elems: seq<JsValue>) returns (views: seq<StringRef>, live: map<nat, string>)
    ensures |views| == |elems|
    ensures elems == [] ==> Resolve(views, live) == Some([])
    ensures elems != [] ==> Resolve(views, live) == None
    ensures forall k :: 0 <= k < |views| ==> views[k].buffer !in live
  {
    var owned: map<nat, string> := map[];
    var block: set<nat> := {};   // buffers owned by the block-local vector
    views := [];
    for i := 0 to |elems|
      invariant |views| == i
      invariant forall k :: k in block <==> 0 <= k < i
      invariant forall k :: 0 <= k < i ==> views[k] == StringRef(k) && k in owned
    {
      owned := owned[i := ToUtf8(elems[i])];
      block := block + {i};
      views := views + [StringRef(i)];
    }
    // the vector goes out of scope here and releases the buffers it owns
    live := owned - block;
    assert elems != [] ==> 0 in block && views[0].buffer !in live;
    assert elems == [] ==> Resolve(views, live).value == [];
  }

  /** The argument views with the converted vector kept alive until the
      continuation has run, as the module text already is: every view reads
      the text of its argument, in order. */
  method ArgumentViewsKeptAlive(elems: seq<JsValue>) returns (views: seq<StringRef>, live: map<nat, string>)
    ensures Resolve(views, live) == Some(ArgumentTexts(elems))
  {
    var owned: map<nat, string> := map[];
    views := [];
    for i := 0 to |elems|
      invariant |views| == i
      invariant forall k :: 0 <= k < i ==> views[k] == StringRef(k)
      invariant forall k :: 0 <= k < i ==> k in owned && owned[k] == ToUtf8(elems[k])
    {
      owned := owned[i := ToUtf8(elems[i])];
      views := views + [StringRef(i)];
    }
    live := owned;
    assert forall i :: 0 <= i < |views| ==> views[i].buffer in live;
    assert Resolve(views, live).value == ArgumentTexts(elems);
  }

  // ---------------------------------------------------------------------
  // Building the request

  /** What the source demands of `arguments`: once `function` has been
      accepted, the value is cast to an array without a check, so it must
      be one. An absent property reads as undefined and fails this. */
  predicate ArgumentsReadable(obj: JsValue)
  {
    var f := GetProperty(obj, "function");
    var a := GetProperty(obj, "arguments");
    f.Some? && f.value.Str? && a.Some? ==> a.value.Arr?
  }

  /** The source's demand excludes the request object that gives only
      `function`, although `arguments` is meant to be optional. */
  lemma AbsentArgumentsUnreadable(name: string)
    ensures !ArgumentsReadable(Obj([("function", Data(Str(name)))]))
  {
    var obj := Obj([("function", Data(Str(name)))]);
    LookupOwnAt(obj.props, 0, "function");
    LookupOwnAbsent(obj.props, "arguments");
  }

  /** The request a request object stands for, or the validation error.
      Validation fails exactly when the `function` lookup is empty or does not
      give text, with the message naming which; an accepted request carries
      that text as its function. An `arguments` value that is not an array
      leaves the arguments empty. */
  function RequestFrom(obj: JsValue): (r: Result<ExecuteRequest, string>)
    ensures r.Failure? <==>
      GetProperty(obj, "function").None? || !GetProperty(obj, "function").value.Str?
    ensures GetProperty(obj, "function").None? ==> r == Failure(FUNCTION_MISSING)
    ensures GetProperty(obj, "function").Some? && !GetProperty(obj, "function").value.Str? ==>
      r == Failure(FUNCTION_NOT_STRING)
    ensures r.Success? ==> r.value.functionName == GetProperty(obj, "function").value.s
  {
    var m := GetProperty(obj, "module");
    var f := GetProperty(obj, "function");
    var a := GetProperty(obj, "arguments");
    var t := GetProperty(obj, "timeout");
    if f.None? then Failure(FUNCTION_MISSING)
    else if !f.value.Str? then Failure(FUNCTION_NOT_STRING)
    else Success(ExecuteRequest(
      if m.Some? then ToUtf8(m.value) else DEFAULT_REQUEST.moduleName,
      f.value.s,
      if a.Some? && a.value.Arr? then ArgumentTexts(a.value.elems) else DEFAULT_REQUEST.arguments,
      if t.Some? then ToUint32(t.value) else DEFAULT_REQUEST.timeout))
  }

  /** Where the source is defined, the array check changes nothing. */
  lemma RequestFromWhereReadable(obj: JsValue)
    requires ArgumentsReadable(obj)
    requires RequestFrom(obj).Success?
    requires GetProperty(obj, "arguments").Some?
    ensures RequestFrom(obj).value.arguments == ArgumentTexts(GetProperty(obj, "arguments").value.elems)
  {
  }

  /** Fills a default request field by field and calls `func` with it; the
      argument texts are read through views whose buffers stay alive. */
  method CreateRequestAndExecute<T>(obj: JsValue, func: ExecuteRequest -> T) returns (r: Result<T, string>)
    ensures r.Failure? <==> RequestFrom(obj).Failure?
    ensures r.Failure? ==> r.error == RequestFrom(obj).error
    ensures r.Success? ==> r.value == func(RequestFrom(obj).value)
  {
    var request := DEFAULT_REQUEST;

    var maybe := GetProperty(obj, "module");
    if maybe.Some? {
      request := request.(moduleName := ToUtf8(maybe.value));
    }

    maybe := GetProperty(obj, "function");
    if maybe.None? {
      return Failure(FUNCTION_MISSING);
    }
    var functionValue := maybe.value;
    if !IsString(functionValue) {
      return Failure(FUNCTION_NOT_STRING);
    }
    request := request.(functionName := functionValue.s);

    maybe := GetProperty(obj, "arguments");
    if maybe.Some? && maybe.value.Arr? {
      var views, live := ArgumentViewsKeptAlive(maybe.value.elems);
      request := request.(arguments := Resolve(views, live).value);
    }

    maybe := GetProperty(obj, "timeout");
    if maybe.Some? {
      request := request.(timeout := ToUint32(maybe.value));
    }

    r := Success(func(request));
  }

  /** The fields of an accepted request: `function` is the text given, and
      every optional field is taken exactly when its lookup is not empty,
      keeping its default otherwise; arguments keep their number and order. */
  lemma RequestFields(obj: JsValue)
    requires RequestFrom(obj).Success?
    ensures RequestFrom(obj).value.functionName == GetProperty(obj, "function").value.s
    ensures RequestFrom(obj).value.moduleName ==
      (if GetProperty(obj, "module").Some? then ToUtf8(GetProperty(obj, "module").value) else "")
    ensures RequestFrom(obj).value.timeout ==
      (if GetProperty(obj, "timeout").Some? then ToUint32(GetProperty(obj, "timeout").value) else 0)
    ensures !(GetProperty(obj, "arguments").Some? && GetProperty(obj, "arguments").value.Arr?) ==>
      RequestFrom(obj).value.arguments == []
    ensures GetProperty(obj, "arguments").Some? && GetProperty(obj, "arguments").value.Arr? ==>
      var elems := GetProperty(obj, "arguments").value.elems;
      |RequestFrom(obj).value.arguments| == |elems| &&
      forall i :: 0 <= i < |elems| ==> RequestFrom(obj).value.arguments[i] == ToUtf8(elems[i])
  {
  }

  /** The request object a well-behaved caller passes for a request. */
  function RequestObject(req: ExecuteRequest): JsValue
  {
    Obj([
      ("module", Data(Str(req.moduleName))),
      ("function", Data(Str(req.functionName))),
      ("arguments", Data(Arr(seq(|req.arguments|, i requires 0 <= i < |req.arguments| => Str(req.arguments[i]))))),
      ("timeout", Data(Number(req.timeout as int)))])
  }

  /** Building from the object that spells out a request gives back that
      request; that object is one the source itself can read. */
  lemma RequestRoundTrip(req: ExecuteRequest)
    ensures ArgumentsReadable(RequestObject(req))
    ensures RequestFrom(RequestObject(req)) == Success(req)
  {
    var obj := RequestObject(req);
    LookupOwnAt(obj.props, 0, "module");
    LookupOwnAt(obj.props, 1, "function");
    LookupOwnAt(obj.props, 2, "arguments");
    LookupOwnAt(obj.props, 3, "timeout");
    Uint32RoundTrip(req.timeout);
    assert ArgumentTexts(obj.props[2].1.value.elems) == req.arguments;
  }

  /** A property the object does not have reads as undefined: an object
      giving only `function` yields module text "undefined", no arguments
      and timeout 0. */
  lemma MissingPropertiesReadAsUndefined(name: string)
    ensures RequestFrom(Obj([("function", Data(Str(name)))])) ==
      Success(ExecuteRequest("undefined", name, [], 0))
  {
    var obj := Obj([("function", Data(Str(name)))]);
    LookupOwnAbsent(obj.props, "module");
    LookupOwnAt(obj.props, 0, "function");
    LookupOwnAbsent(obj.props, "arguments");
    LookupOwnAbsent(obj.props, "timeout");
  }
}
