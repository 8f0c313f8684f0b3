/**
 The saved record of the onboarding task (apps/web/src/first-sandbox.ts, lines 4 to 34): what is
 written to session storage and what is accepted when it is read back.
 */
module FirstTaskRecord {
  import opened Wrappers

  /** Property names: those of a task, and every other one. */
  datatype Name =
    | TemplateId | Cwd | Intent | SandboxId | Submitted | CommandId | Output | Complete
    | Other(name: string)

  /** A parsed JSON text. */
  datatype Json =
    | JNull
    | JBool(flag: bool)
    | JNumber(number: real)
    | JString(text: string)
    | JArray(items: seq<Json>)
    | JObject(fields: map<Name, Json>)

  /** What the storage slot holds: nothing, text that is not JSON, or a JSON text. */
  datatype Stored = Absent | Malformed | Parsed(json: Json)

  datatype Task = Task(
    templateId: string,
    cwd: string,
    intent: string,
    sandboxId: Option<string>,
    submitted: Option<bool>,
    commandId: Option<string>,
    output: Option<string>,
    complete: Option<bool>)


  predicate Rooted(path: string) {
    |path| > 0 && path[0] == '/'
  }

  /** JavaScript truthiness of an optional string and of an optional flag. */
  predicate Given(field: Option<string>) {
    field.Some? && field.value != ""
  }

  predicate Set(field: Option<bool>) {
    field.Some? && field.value
  }

  const NAMES := {TemplateId, Cwd, Intent, SandboxId, Submitted, CommandId, Output, Complete}

  function Text(field: Option<string>): Option<Json> {
    if field.Some? then Some(JString(field.value)) else None
  }

  function Flag(field: Option<bool>): Option<Json> {
    if field.Some? then Some(JBool(field.value)) else None
  }

  /** The property of a task, None when it is undefined. */
  function Property(task: Task, name: Name): Option<Json> {
    match name
    case TemplateId => Some(JString(task.templateId))
    case Cwd => Some(JString(task.cwd))
    case Intent => Some(JString(task.intent))
    case SandboxId => Text(task.sandboxId)
    case Submitted => Flag(task.submitted)
    case CommandId => Text(task.commandId)
    case Output => Text(task.output)
    case Complete => Flag(task.complete)
    case Other(_) => None
  }

  /** JSON.stringify of a task: an undefined property leaves no trace. */
  function Write(task: Task): Stored {
    Parsed(JObject(map name | name in NAMES && Property(task, name).Some? :: Property(task, name).value))
  }

  /** The type readFirstTask insists on for a property that is there. */
  predicate Fits(name: Name, json: Json) {
    match name
    case TemplateId | Cwd | Intent | SandboxId | CommandId | Output => json.JString?
    case Submitted | Complete => json.JBool?
    case Other(_) => true
  }

  predicate WellShaped(fields: map<Name, Json>) {
    && (forall name | name in fields :: Fits(name, fields[name]))
    && TemplateId in fields && Intent in fields && Cwd in fields
    && Rooted(fields[Cwd].text)
  }

  function TextAt(fields: map<Name, Json>, name: Name): Option<string> {
    if name in fields && fields[name].JString? then Some(fields[name].text) else None
  }

  function FlagAt(fields: map<Name, Json>, name: Name): Option<bool> {
    if name in fields && fields[name].JBool? then Some(fields[name].flag) else None
  }

  function ReadFirstTask(value: Stored): Option<Task> {
    if !(value.Parsed? && value.json.JObject? && WellShaped(value.json.fields)) then None
    else
      var fields := value.json.fields;
      Some(Task(fields[TemplateId].text, fields[Cwd].text, fields[Intent].text,
                TextAt(fields, SandboxId), FlagAt(fields, Submitted), TextAt(fields, CommandId),
                TextAt(fields, Output), FlagAt(fields, Complete)))
  }

  /** The properties of a record that a task has. */
  function Known(fields: map<Name, Json>): map<Name, Json> {
    map name | name in fields && !name.Other? :: fields[name]
  }

  /** Writing and reading back loses nothing, and is refused for one reason only. */
  lemma {:induction false} ReadOfWrite(task: Task)
    ensures ReadFirstTask(Write(task)) == if Rooted(task.cwd) then Some(task) else None
  {
    var fields := Write(task).json.fields;
    forall name | name in fields ensures Fits(name, fields[name]) {}
    assert fields[Cwd] == JString(task.cwd);
    assert TemplateId in fields && Intent in fields;
  }

  /** What is read is what was stored, property by property; unknown properties are dropped. */
  lemma WriteOfRead(value: Stored)
    requires ReadFirstTask(value).Some?
    ensures Rooted(ReadFirstTask(value).value.cwd)
    ensures Write(ReadFirstTask(value).value) == Parsed(JObject(Known(value.json.fields)))
  {
    var task := ReadFirstTask(value).value;
    var fields := value.json.fields;
    forall name: Name | !name.Other?
      ensures Property(task, name) == if name in fields then Some(fields[name]) else None
    {
      assert name in fields ==> Fits(name, fields[name]);
    }
    assert forall name: Name :: !name.Other? <==> name in NAMES;
    assert Write(task).json.fields == Known(fields);
  }

  /**
   Reading accepts a value exactly when, unknown properties aside, it is the writing of some task
   with a rooted working directory. With ReadOfWrite: reading is the inverse of writing.
   */
  lemma ReadAcceptsWritings(value: Stored)
    ensures ReadFirstTask(value).Some? <==>
            exists task: Task ::
              Rooted(task.cwd) && value.Parsed? && value.json.JObject? && Write(task) == Parsed(JObject(Known(value.json.fields)))
  {
    if ReadFirstTask(value).Some? {
      WriteOfRead(value);
    }
    forall task: Task |
      Rooted(task.cwd) && value.Parsed? && value.json.JObject? && Write(task) == Parsed(JObject(Known(value.json.fields)))
      ensures ReadFirstTask(value).Some?
    {
      ReadOfWrite(task);
      var kept := Known(value.json.fields);
      assert WellShaped(kept);
      assert Cwd in kept && Intent in kept && TemplateId in kept;
      forall name | name in value.json.fields ensures Fits(name, value.json.fields[name]) {
        assert !name.Other? ==> name in kept && Fits(name, kept[name]);
      }
    }
  }
}
