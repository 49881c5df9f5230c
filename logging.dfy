/**
 * The two pure pieces of the logging set-up: the record written for a
 * request or a response (a copy of the dict tagged with the request
 * identifier), and the split of a configured handler class path
 * `a.b.C` into its module `a.b` and class `C`.
 */
module Logging {
  import opened Python

  const IdentifierKey := "identifier"

  /** `get_loggable_object(instance, identifier)`: a deep copy of the dict with
      `identifier` set; anything without `update` raises. Values are immutable
      here, so the caller's dict is untouched by construction. */
  function LoggableObject(instance: Value, identifier: Value): (r: Result<Value, Error>)
    ensures r.Ok? <==> instance.PyDict?
    ensures r.Ok? ==> r.value.PyDict? && r.value.entries.Keys == instance.entries.Keys + {IdentifierKey}
    ensures r.Ok? ==> r.value.entries[IdentifierKey] == identifier
    ensures r.Ok? ==> forall k :: k in instance.entries && k != IdentifierKey ==> r.value.entries[k] == instance.entries[k]
    ensures r.Err? ==> r.error == NoAttribute(instance, "update")
  {
    if instance.PyDict? then Ok(PyDict(instance.entries[IdentifierKey := identifier]))
    else Err(NoAttribute(instance, "update"))
  }

  /** Tagging is idempotent for one identifier and the last tag wins. */
  lemma RetagKeepsLast(instance: Value, id1: Value, id2: Value)
    requires LoggableObject(instance, id1).Ok?
    ensures LoggableObject(LoggableObject(instance, id1).value, id2) == LoggableObject(instance, id2)
  {
    var d := instance.entries;
    assert d[IdentifierKey := id1][IdentifierKey := id2] == d[IdentifierKey := id2];
  }

  /** `s.split(".")`: the pieces between dots, at least one. */
  function Split(s: string): (parts: seq<string>)
    ensures |parts| >= 1
    ensures forall i, k :: 0 <= i < |parts| && 0 <= k < |parts[i]| ==> parts[i][k] != '.'
  {
    if s == [] then [""]
    else
      var rest := Split(s[1..]);
      if s[0] == '.' then [""] + rest
      else [[s[0]] + rest[0]] + rest[1..]
  }

  /** `".".join(parts)`. */
  function Join(parts: seq<string>): string {
    if parts == [] then ""
    else if |parts| == 1 then parts[0]
    else parts[0] + "." + Join(parts[1..])
  }

  /** Joining the pieces of a split gives the string back. */
  lemma {:induction false} JoinSplit(s: string)
    ensures Join(Split(s)) == s
  {
    if s != [] {
      JoinSplit(s[1..]);
      var rest := Split(s[1..]);
      if s[0] == '.' {
        assert s == "." + s[1..];
      } else {
        JoinHead(s[0], rest);
        assert s == [s[0]] + s[1..];
      }
    }
  }

  lemma {:induction false} JoinHead(c: char, parts: seq<string>)
    requires |parts| >= 1
    ensures Join([[c] + parts[0]] + parts[1..]) == [c] + Join(parts)
  {
    var q := [[c] + parts[0]] + parts[1..];
    if |parts| == 1 {
    } else {
      assert q[1..] == parts[1..];
    }
  }

  /** The handler's module and class, from the configured dotted path. */
  function ClassPath(path: string): (r: (string, string))
    ensures forall k :: 0 <= k < |r.1| ==> r.1[k] != '.'
  {
    var parts := Split(path);
    var last := parts[|parts| - 1];
    assert forall k :: 0 <= k < |last| ==> last[k] != '.';
    (Join(parts[..|parts| - 1]), last)
  }

  /** The class is the last dot-free segment; when the path has a dot, module,
      dot and class give the path back, and otherwise the module is empty. */
  lemma ClassPathSplit(path: string)
    ensures forall k :: 0 <= k < |ClassPath(path).1| ==> ClassPath(path).1[k] != '.'
    ensures (exists k :: 0 <= k < |path| && path[k] == '.') ==>
              ClassPath(path).0 + "." + ClassPath(path).1 == path
    ensures (forall k :: 0 <= k < |path| ==> path[k] != '.') ==>
              ClassPath(path) == ("", path)
  {
    var parts := Split(path);
    JoinSplit(path);
    if |parts| == 1 {
      assert ClassPath(path) == ("", path);
    } else {
      JoinLast(parts);
      var k := |Join(parts[..|parts| - 1])|;
      assert path[k] == '.';
    }
  }

  lemma {:induction false} JoinLast(parts: seq<string>)
    requires |parts| >= 2
    ensures Join(parts) == Join(parts[..|parts| - 1]) + "." + parts[|parts| - 1]
  {
    if |parts| == 2 {
      assert parts[..1] == [parts[0]];
    } else {
      JoinLast(parts[1..]);
      assert parts[1..][..|parts| - 2] == parts[..|parts| - 1][1..];
    }
  }
}
