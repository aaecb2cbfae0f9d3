/**
 * Helpers of common.go: the short name of a resource type, and the status,
 * header and body `renderJSON` writes for a handler's reply.
 */
module Common {
  import opened Wrappers

  /** `strings.Split(s, sep)` for a one-character separator: the pieces between separators, always at least one. */
  function Split(s: string, sep: char): (parts: seq<string>)
    ensures |parts| >= 1
    ensures forall i :: 0 <= i < |parts| ==> sep !in parts[i]
    decreases |s|
  {
    if s == [] then [[]]
    else
      var rest := Split(s[1..], sep);
      if s[0] == sep then [[]] + rest else [[s[0]] + rest[0]] + rest[1..]
  }

  /** `strings.Join(parts, sep)`: the pieces with one separator between neighbours. */
  function Join(parts: seq<string>, sep: char): string
    decreases |parts|
  {
    if parts == [] then []
    else if |parts| == 1 then parts[0]
    else parts[0] + [sep] + Join(parts[1..], sep)
  }

  /** Joining the pieces of a split gives the original text back. */
  lemma {:induction false} JoinSplit(s: string, sep: char)
    ensures Join(Split(s, sep), sep) == s
    decreases |s|
  {
    if s != [] {
      var rest := Split(s[1..], sep);
      JoinSplit(s[1..], sep);
      if s[0] == sep {
        assert Split(s, sep)[1..] == rest;
      } else {
        var parts := Split(s, sep);
        if |rest| == 1 {
          assert parts == [[s[0]] + rest[0]];
        } else {
          assert parts[1..] == rest[1..];
          assert Join(rest, sep) == rest[0] + [sep] + Join(rest[1..], sep);
        }
      }
    }
  }

  /** Splitting pieces that hold no separator, once joined, gives the pieces back. */
  lemma {:induction false} SplitJoin(parts: seq<string>, sep: char)
    requires |parts| >= 1
    requires forall i :: 0 <= i < |parts| ==> sep !in parts[i]
    ensures Split(Join(parts, sep), sep) == parts
    decreases |parts|, |parts[0]|
  {
    var p := parts[0];
    if p == [] {
      if |parts| > 1 {
        SplitJoin(parts[1..], sep);
        var s := Join(parts, sep);
        assert s == [sep] + Join(parts[1..], sep);
        assert s[1..] == Join(parts[1..], sep);
      }
    } else {
      var parts' := [p[1..]] + parts[1..];
      assert forall i :: 1 <= i < |parts'| ==> parts'[i] == parts[i];
      SplitJoin(parts', sep);
      var s := Join(parts, sep);
      if |parts| == 1 {
        assert s[1..] == Join(parts', sep);
      } else {
        assert parts'[1..] == parts[1..];
        assert s[1..] == Join(parts', sep);
      }
      assert s[0] == p[0] && p[0] != sep;
      assert [p[0]] + p[1..] == p;
      assert parts == [[p[0]] + Split(s[1..], sep)[0]] + Split(s[1..], sep)[1..];
    }
  }

  /** A text joined from two or more pieces ends with a separator and the last piece. */
  lemma {:induction false} JoinLast(parts: seq<string>, sep: char)
    requires |parts| >= 2
    ensures Join(parts, sep) == Join(parts[..|parts| - 1], sep) + [sep] + parts[|parts| - 1]
    decreases |parts|
  {
    if |parts| > 2 {
      JoinLast(parts[1..], sep);
      assert parts[1..][..|parts| - 2] == parts[..|parts| - 1][1..];
    } else {
      assert parts[..1] == [parts[0]];
    }
  }

  /** Text without the separator splits into itself alone. */
  lemma SplitNoSeparator(s: string, sep: char)
    requires sep !in s
    ensures Split(s, sep) == [s]
  {
    var parts := Split(s, sep);
    JoinSplit(s, sep);
    if |parts| >= 2 {
      JoinLast(parts, sep);
      assert false;
    }
  }

  /**
   * `simpleStructName`: the last `.`-separated segment of a type's name, as
   * `testuser` of `*goal_test.testuser`.
   */
  function SimpleStructName(typeName: string): (name: string)
    ensures '.' !in name
    ensures |name| <= |typeName| && typeName[|typeName| - |name|..] == name
    ensures |name| < |typeName| ==> typeName[|typeName| - |name| - 1] == '.'
    ensures '.' !in typeName ==> name == typeName
  {
    var parts := Split(typeName, '.');
    var name := parts[|parts| - 1];
    JoinSplit(typeName, '.');
    if |parts| >= 2 then
      JoinLast(parts, '.');
      name
    else
      if '.' !in typeName then SplitNoSeparator(typeName, '.'); name
      else name
  }

  /** What `renderJSON` writes: a status line, a Content-Type header when one is set, and a body. */
  datatype Written = Written(status: int, contentType: Option<string>, body: seq<bv8>)

  const StatusMethodNotAllowed: int := 405
  const StatusInternalServerError: int := 500
  const JsonContentType: string := "application/json"

  /**
   * `renderJSON`: with no handler, 405 and nothing else; otherwise the
   * handler's reply is marshalled, and a marshalling failure writes 500,
   * while success writes the handler's code, the JSON content type and the
   * marshalled bytes. `marshal` stands for `json.Marshal` (None is its error).
   */
  function RenderJSON<Req, Data>(request: Req, handler: Option<Req -> (int, Data)>,
                                 marshal: Data -> Option<seq<bv8>>): (w: Written)
    ensures handler.None? ==> w == Written(StatusMethodNotAllowed, None, [])
    ensures w.contentType.Some? <==> handler.Some? && marshal(handler.value(request).1).Some?
    ensures w.contentType.Some? ==>
      && w.contentType.value == JsonContentType
      && w.status == handler.value(request).0
      && Some(w.body) == marshal(handler.value(request).1)
    ensures handler.Some? && marshal(handler.value(request).1).None? ==> w == Written(StatusInternalServerError, None, [])
  {
    match handler
    case None => Written(StatusMethodNotAllowed, None, [])
    case Some(h) =>
      var (code, data) := h(request);
      match marshal(data)
      case None => Written(StatusInternalServerError, None, [])
      case Some(content) => Written(code, Some(JsonContentType), content)
  }
}
