/**
 * Forwarding of the offscreen document's console output to the background
 * service worker: the gate deciding which calls are forwarded, the
 * serialisation of arguments for message passing (errors become tagged plain
 * records), their deserialisation in the background, and the background's
 * handling of a log message.
 *
 * `JSON.parse(JSON.stringify(v))`, `String(v)`, `toLocaleTimeString` and the
 * stack a fresh `Error` receives are parameters.
 */
module OffscreenLogger {
  import opened Js
  import opened OrderedMaps
  import opened Messages

  const LogType: string := "OFFSCREEN_LOG"
  const ErrorLevel: string := "error"

  /** The JSON round trip of an object, or `None` when `JSON.stringify` throws (a cycle, say). */
  type JsonClone = JsValue -> Option<JsValue>

  /** `String(v)` */
  type Display = JsValue -> string

  /** Only development builds forward ordinary output; errors are always forwarded. */
  predicate Forwards(isDev: bool, level: string) {
    isDev || level == ErrorLevel
  }

  /** The record an `Error` is turned into: tagged with `__error: true`, with its name, message and stack. */
  function ErrorRecord(name: string, message: string, stack: Option<string>): JsValue {
    Obj([("__error", Bool(true)), ("name", Str(name)), ("message", Str(message)),
         ("stack", if stack.Some? then Str(stack.value) else Undefined)])
  }

  /**
   * `serializeArg(arg)`: `null` and `undefined` pass through, an error becomes
   * its tagged record, an object is cloned through JSON (or becomes its string
   * form when that throws), and every other value passes through.
   */
  function SerializeArg(arg: JsValue, clone: JsonClone, display: Display): (r: JsValue)
    ensures !arg.Err? && !arg.Obj? ==> r == arg
    ensures arg.Err? ==> IsErrorRecord(r)
  {
    match arg
    case Err(name, message, stack) => ErrorRecord(name, message, stack)
    case Obj(_) => if clone(arg).Some? then clone(arg).value else Str(display(arg))
    case _ => arg
  }

  /** `arg && typeof arg === "object" && "__error" in arg && arg.__error === true` */
  predicate IsErrorRecord(arg: JsValue) {
    arg.Obj? && Get(arg.props, "__error") == Some(Bool(true))
  }

  /** A property read as a string: absent or `undefined` gives `fallback`, a string itself, anything else its string form. */
  function StringProp(props: seq<(string, JsValue)>, key: string, fallback: string, display: Display): string {
    var v: Option<JsValue> := Get(props, key);
    match v
    case None => fallback
    case Some(Undefined) => fallback
    case Some(Str(s)) => s
    case Some(v) => display(v)
  }

  /**
   * `deserializeArg(arg)`: a tagged record becomes an `Error` with the record's
   * message and name; its stack is the record's when that is truthy (a
   * non-string one in its string form), and otherwise the stack the new
   * `Error` was created with. Any other
   * value passes through.
   */
  function DeserializeArg(arg: JsValue, display: Display, freshStack: Option<string>): (r: JsValue)
    ensures !IsErrorRecord(arg) ==> r == arg
    ensures IsErrorRecord(arg) ==> r.Err?
  {
    if IsErrorRecord(arg) then
      Err(StringProp(arg.props, "name", "", display), StringProp(arg.props, "message", "", display),
          StackProp(arg.props, display, freshStack))
    else arg
  }

  /** The stack a deserialised error ends up with: the record's when truthy, otherwise `freshStack`. */
  function StackProp(props: seq<(string, JsValue)>, display: Display, freshStack: Option<string>): Option<string> {
    var v: Option<JsValue> := Get(props, "stack");
    match v
    case Some(Str(s)) => if s != [] then Some(s) else freshStack
    case Some(v) => if v.Undefined? || v.Null? || v == Bool(false) || v == Num(0.0) then freshStack else Some(display(v))
    case None => freshStack
  }

  /** The fields of an error record, looked up by name. */
  lemma ErrorRecordFields(name: string, message: string, stack: Option<string>)
    ensures var props := ErrorRecord(name, message, stack).props;
      && Get(props, "__error") == Some(Bool(true))
      && Get(props, "name") == Some(Str(name))
      && Get(props, "message") == Some(Str(message))
      && Get(props, "stack") == Some(if stack.Some? then Str(stack.value) else Undefined)
  {
    var props := ErrorRecord(name, message, stack).props;
    assert "message"[0] != "__error"[0] && "stack"[0] != "__error"[0];
    assert "message"[0] != "name"[0] && "stack"[0] != "name"[0];
    assert "stack"[0] != "message"[0];
    assert Get(props, "message") == Get(props[1..], "message") == Get(props[2..], "message");
    assert Get(props, "stack") == Get(props[1..], "stack") == Get(props[2..], "stack") == Get(props[3..], "stack");
  }

  /**
   * An error logged in the offscreen document arrives in the background with
   * its name and message; its stack survives unless it was missing or empty.
   */
  lemma ErrorRoundTrip(name: string, message: string, stack: Option<string>, clone: JsonClone, display: Display, freshStack: Option<string>)
    ensures DeserializeArg(SerializeArg(Err(name, message, stack), clone, display), display, freshStack) ==
      Err(name, message, if stack.Some? && stack.value != [] then stack else freshStack)
  {
    assert SerializeArg(Err(name, message, stack), clone, display) == ErrorRecord(name, message, stack);
    ErrorRecordFields(name, message, stack);
    DeserializeRecord(ErrorRecord(name, message, stack).props, name, message,
      if stack.Some? then Str(stack.value) else Undefined, display, freshStack);
  }

  /** A record tagged as an error, with string name and message, deserialises to an error with those. */
  lemma DeserializeRecord(props: seq<(string, JsValue)>, name: string, message: string, stack: JsValue,
                          display: Display, freshStack: Option<string>)
    requires Get(props, "__error") == Some(Bool(true))
    requires Get(props, "name") == Some(Str(name)) && Get(props, "message") == Some(Str(message))
    requires Get(props, "stack") == Some(stack) && (stack.Str? || stack.Undefined?)
    ensures DeserializeArg(Obj(props), display, freshStack) ==
      Err(name, message, if stack.Str? && stack.s != [] then Some(stack.s) else freshStack)
  {
    StringPropOf(props, "name", name, display);
    StringPropOf(props, "message", message, display);
    StackPropOf(props, stack, display, freshStack);
  }

  lemma StringPropOf(props: seq<(string, JsValue)>, key: string, value: string, display: Display)
    requires Get(props, key) == Some(Str(value))
    ensures StringProp(props, key, "", display) == value
  {
  }

  lemma StackPropOf(props: seq<(string, JsValue)>, stack: JsValue, display: Display, freshStack: Option<string>)
    requires Get(props, "stack") == Some(stack) && (stack.Str? || stack.Undefined?)
    ensures StackProp(props, display, freshStack) == if stack.Str? && stack.s != [] then Some(stack.s) else freshStack
  {
  }

  /** A primitive argument arrives unchanged. */
  lemma PrimitiveRoundTrip(arg: JsValue, clone: JsonClone, display: Display, freshStack: Option<string>)
    requires !arg.Err? && !arg.Obj?
    ensures DeserializeArg(SerializeArg(arg, clone, display), display, freshStack) == arg
  {
  }

  /**
   * One intercepted `console[level](...args)` call: when forwarded, the log
   * message sent to the background carries the level, the serialised
   * arguments and the time of the call.
   */
  function Intercept(level: string, args: seq<JsValue>, isDev: bool, now: real, clone: JsonClone, display: Display): (sent: Option<Message>)
    ensures sent.Some? <==> Forwards(isDev, level)
    ensures sent.Some? ==> sent.value.msgType == LogType && sent.value.payload.LogPayload?
    ensures sent.Some? ==> sent.value.payload.level == level && sent.value.payload.timestamp == now
    ensures sent.Some? ==> |sent.value.payload.args| == |args|
    ensures sent.Some? ==> forall i :: 0 <= i < |args| ==> sent.value.payload.args[i] == SerializeArg(args[i], clone, display)
  {
    if Forwards(isDev, level) then
      Some(Message(LogType, LogPayload(level, seq(|args|, i requires 0 <= i < |args| => SerializeArg(args[i], clone, display)), now)))
    else None
  }

  /** A line written to the background's console: the console method, the prefix and the arguments. */
  datatype ConsoleLine = ConsoleLine(call: string, prefix: string, args: seq<JsValue>)

  /** The console method a level is written with: the level's own for error, warn, info and debug, `log` otherwise. */
  function ConsoleMethod(level: string): (call: string)
    ensures level in {"error", "warn", "info", "debug"} ==> call == level
    ensures level !in {"error", "warn", "info", "debug"} ==> call == "log"
  {
    if level in {"error", "warn", "info", "debug"} then level else "log"
  }

  /**
   * `handleOffscreenLog(message)`: a message of another type is not handled;
   * a log message is handled, and written to the console (with the prefix
   * `[Offscreen <time>]` and deserialised arguments) only when the gate lets
   * its level through.
   */
  function HandleOffscreenLog(message: Message, isDev: bool, timeString: real -> string, display: Display, freshStack: Option<string>)
    : (r: (bool, Option<ConsoleLine>))
    requires message.msgType == LogType ==> message.payload.LogPayload?
    ensures r.0 <==> message.msgType == LogType
    ensures r.1.Some? <==> message.msgType == LogType && Forwards(isDev, message.payload.level)
    ensures r.1.Some? ==>
      && r.1.value.call == ConsoleMethod(message.payload.level)
      && r.1.value.prefix == "[Offscreen " + timeString(message.payload.timestamp) + "]"
      && |r.1.value.args| == |message.payload.args|
      && forall i :: 0 <= i < |message.payload.args| ==>
           r.1.value.args[i] == DeserializeArg(message.payload.args[i], display, freshStack)
  {
    if message.msgType != LogType then (false, None)
    else
      var LogPayload(level, args, timestamp) := message.payload;
      if !Forwards(isDev, level) then (true, None)
      else
        var time := timeString(timestamp);
        var line := ConsoleLine(ConsoleMethod(level), "[Offscreen " + time + "]",
          seq(|args|, i requires 0 <= i < |args| => DeserializeArg(args[i], display, freshStack)));
        (true, Some(line))
  }

  /**
   * End to end: an error forwarded from the offscreen document is written to
   * the background's console with the level's method, carrying the name and
   * message of each error argument.
   */
  lemma ForwardedErrorsArrive(level: string, args: seq<JsValue>, isDev: bool, now: real, clone: JsonClone, display: Display,
                              timeString: real -> string, freshStack: Option<string>, i: nat)
    requires Forwards(isDev, level)
    requires i < |args| && args[i].Err?
    ensures var sent := Intercept(level, args, isDev, now, clone, display).value;
      var line := HandleOffscreenLog(sent, isDev, timeString, display, freshStack).1;
      && line.Some? && line.value.call == ConsoleMethod(level)
      && line.value.args[i].Err?
      && line.value.args[i].name == args[i].name && line.value.args[i].message == args[i].message
  {
    ErrorRoundTrip(args[i].name, args[i].message, args[i].stack, clone, display, freshStack);
  }
}
