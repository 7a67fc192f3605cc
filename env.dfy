/** The process environment as a sequence of `NAME=value` entries, with the
    C library's putenv and getenv over it. */
module Env {
  import opened Wrappers
  import opened CStrings

  /** The entry sets a variable: it contains an '='. */
  predicate IsSetting(e: string) {
    Find(e, '=') < |e|
  }

  /** The variable an entry sets: the part before its first '='. */
  function Name(e: string): string {
    e[..Find(e, '=')]
  }

  /** The value an entry gives: the part after its first '='. */
  function Value(e: string): string
    requires IsSetting(e)
  {
    e[Find(e, '=') + 1..]
  }

  /** `name` is given a value by entry e. */
  predicate Defines(e: string, name: string) {
    IsSetting(e) && Name(e) == name
  }

  /** getenv(name): the value given by the first entry that defines `name`. */
  function GetEnv(env: seq<string>, name: string): (r: Option<string>)
    ensures r.None? <==> forall i :: 0 <= i < |env| ==> !Defines(env[i], name)
  {
    if env == [] then None
    else if Defines(env[0], name) then Some(Value(env[0]))
    else
      var r := GetEnv(env[1..], name);
      assert forall i :: 1 <= i < |env| ==> env[i] == env[1..][i - 1];
      r
  }

  /** putenv(entry): the entry replaces the first one that defines the same
      variable, or is appended when there is none. */
  function PutEnv(env: seq<string>, entry: string): (r: seq<string>)
    requires IsSetting(entry)
    ensures entry in r
  {
    if env == [] then [entry]
    else if Defines(env[0], Name(entry)) then [entry] + env[1..]
    else [env[0]] + PutEnv(env[1..], entry)
  }

  /** After putenv(entry), getenv of its variable yields its value. */
  lemma {:induction false} PutEnvGet(env: seq<string>, entry: string)
    requires IsSetting(entry)
    ensures GetEnv(PutEnv(env, entry), Name(entry)) == Some(Value(entry))
  {
    if env != [] && !Defines(env[0], Name(entry)) {
      PutEnvGet(env[1..], entry);
    }
  }

  /** putenv(entry) leaves every other variable as it was. */
  lemma {:induction false} PutEnvOther(env: seq<string>, entry: string, name: string)
    requires IsSetting(entry) && name != Name(entry)
    ensures GetEnv(PutEnv(env, entry), name) == GetEnv(env, name)
  {
    if env != [] && !Defines(env[0], Name(entry)) {
      PutEnvOther(env[1..], entry, name);
    }
  }
}
