/** removeTopStruct (controller/user.go): validation messages are keyed by
    "Struct.Field"; the struct name before the first '.' is dropped. */
module FieldNames {

  /** strings.Index(s, string(c)): the first position of `c`, or -1. */
  function IndexOf(s: string, c: char): (i: int)
    ensures -1 <= i < |s|
    ensures i == -1 <==> c !in s
    ensures 0 <= i ==> s[i] == c && c !in s[..i]
  {
    if |s| == 0 then -1
    else if s[0] == c then 0
    else
      var j := IndexOf(s[1..], c);
      if j == -1 then -1
      else
        assert s[..j+1] == [s[0]] + s[1..][..j];
        j + 1
  }

  /** field[strings.Index(field, ".")+1:] */
  function StripTop(field: string): string {
    field[IndexOf(field, '.') + 1..]
  }

  /** A name with no '.' is kept whole; otherwise exactly the text after its first '.'
      remains, so any later dots survive. */
  lemma StripTopSpec(field: string)
    ensures '.' !in field ==> StripTop(field) == field
    ensures '.' in field ==>
      exists i :: 0 <= i < |field| && field[i] == '.' && '.' !in field[..i] && StripTop(field) == field[i + 1..]
    ensures forall i :: 0 <= i < |field| && field[i] == '.' && '.' !in field[..i] ==>
      StripTop(field) == field[i + 1..]
  {
    var k := IndexOf(field, '.');
    forall i | 0 <= i < |field| && field[i] == '.' && '.' !in field[..i]
      ensures StripTop(field) == field[i + 1..]
    {
    }
  }

  /** The set of stripped names of a set of field names. */
  function StrippedNames(fields: set<string>): set<string> {
    set f | f in fields :: StripTop(f)
  }

  ghost predicate StripInjective(fields: set<string>) {
    forall f, g :: f in fields && g in fields && StripTop(f) == StripTop(g) ==> f == g
  }

  lemma {:induction false} StrippedNamesSize(fields: set<string>)
    ensures |StrippedNames(fields)| <= |fields|
    ensures StripInjective(fields) ==> |StrippedNames(fields)| == |fields|
    decreases |fields|
  {
    if fields != {} {
      var f :| f in fields;
      var rest := fields - {f};
      StrippedNamesSize(rest);
      var img := StrippedNames(rest);
      assert StrippedNames(fields) == img + {StripTop(f)};
      if StripInjective(fields) {
        assert StripInjective(rest);
        assert StripTop(f) !in img;
      }
    }
  }

  /** removeTopStruct: a fresh map from stripped names to the messages; the input is a value and is not changed. */
  method RemoveTopStruct(fields: map<string, string>) returns (res: map<string, string>)
    ensures res.Keys == StrippedNames(fields.Keys)
    ensures forall k :: k in res ==> exists f :: f in fields && StripTop(f) == k && res[k] == fields[f]
    ensures |res| <= |fields|
    ensures StripInjective(fields.Keys) ==>
      |res| == |fields| && forall f :: f in fields ==> res[StripTop(f)] == fields[f]
  {
    res := map[];
    var todo := fields.Keys;
    while todo != {}
      invariant todo <= fields.Keys
      invariant res.Keys == StrippedNames(fields.Keys - todo)
      invariant forall k :: k in res ==> exists f :: f in fields && StripTop(f) == k && res[k] == fields[f]
      invariant StripInjective(fields.Keys) ==>
        forall f :: f in fields.Keys - todo ==> res[StripTop(f)] == fields[f]
      decreases |todo|
    {
      var field :| field in todo;
      res := res[StripTop(field) := fields[field]];
      todo := todo - {field};
    }
    StrippedNamesSize(fields.Keys);
  }
}
