/**
 * The browser's `FormData`: an ordered list of named fields, appended to
 * one at a time, where `get(name)` answers the first field of that name.
 */
module Forms {
  import opened Wrappers
  import Seqs

  datatype FileRef = FileRef(name: string)

  /**
   * What a field carries: a string, a number or boolean sent with `toString()`,
   * a `JSON.stringify`-ed list of strings, or a chosen file.
   */
  datatype FormValue = Str(s: string) | Number(n: real) | Flag(b: bool) | JsonList(items: seq<string>) | Blob(file: FileRef)

  datatype Field = Field(name: string, value: FormValue)

  /** `formData.get(name)`: the value of the first field called `name`, if any. */
  function Lookup(fields: seq<Field>, name: string): (r: Option<FormValue>)
    ensures r.None? <==> forall i :: 0 <= i < |fields| ==> fields[i].name != name
    ensures r.Some? ==> exists i :: 0 <= i < |fields| && fields[i] == Field(name, r.value)
  {
    var i := Seqs.FindIndex(fields, (f: Field) => f.name == name);
    if i < |fields| then Some(fields[i].value) else None
  }

  /** The field at `k` answers `get(name)` when no earlier field has that name. */
  lemma LookupAt(fields: seq<Field>, k: nat, name: string)
    requires k < |fields| && fields[k].name == name
    requires forall j :: 0 <= j < k ==> fields[j].name != name
    ensures Lookup(fields, name) == Some(fields[k].value)
  {
    var p := (f: Field) => f.name == name;
    var i := Seqs.FindIndex(fields, p);
    assert p(fields[k]);
    assert i == k;
  }

  /** A name found in the first part is answered from there, whatever follows. */
  lemma LookupPrefix(a: seq<Field>, b: seq<Field>, name: string)
    requires Lookup(a, name).Some?
    ensures Lookup(a + b, name) == Lookup(a, name)
  {
    var i := Seqs.FindIndex(a, (f: Field) => f.name == name);
    LookupAt(a + b, i, name);
  }

  /** A name absent from the first part is looked up in the rest. */
  lemma LookupSkip(a: seq<Field>, b: seq<Field>, name: string)
    requires Lookup(a, name).None?
    ensures Lookup(a + b, name) == Lookup(b, name)
  {
    if Lookup(b, name).Some? {
      var k := Seqs.FindIndex(b, (f: Field) => f.name == name);
      LookupAt(a + b, |a| + k, name);
    } else {
      assert forall i :: 0 <= i < |a + b| ==> (a + b)[i].name != name by {
        forall i | 0 <= i < |a + b| ensures (a + b)[i].name != name {
          if i >= |a| {
            assert (a + b)[i] == b[i - |a|];
          }
        }
      }
    }
  }

  /** Appending adds a field that is found only when no earlier field has its name. */
  lemma {:induction false} LookupAppend(fields: seq<Field>, name: string, value: FormValue, other: string)
    ensures Lookup(fields + [Field(name, value)], name) == if Lookup(fields, name).Some? then Lookup(fields, name) else Some(value)
    ensures other != name ==> Lookup(fields + [Field(name, value)], other) == Lookup(fields, other)
  {
    FindAppend(fields, Field(name, value), (f: Field) => f.name == name);
    FindAppend(fields, Field(name, value), (f: Field) => f.name == other);
  }

  lemma {:induction false} FindAppend(s: seq<Field>, x: Field, p: Field -> bool)
    ensures Seqs.FindIndex(s, p) == |s| ==> Seqs.FindIndex(s + [x], p) == if p(x) then |s| else |s| + 1
    ensures Seqs.FindIndex(s, p) < |s| ==> Seqs.FindIndex(s + [x], p) == Seqs.FindIndex(s, p)
  {
    if s == [] {
      assert s + [x] == [x];
      assert [x][1..] == [];
    } else {
      assert (s + [x])[0] == s[0];
      assert (s + [x])[1..] == s[1..] + [x];
      FindAppend(s[1..], x, p);
    }
  }

  /** A `FormData` object, filled by successive `append` calls. */
  class FormData {
    var fields: seq<Field>

    constructor ()
      ensures fields == []
    {
      fields := [];
    }

    method Append(name: string, value: FormValue)
      modifies this
      ensures fields == old(fields) + [Field(name, value)]
    {
      fields := fields + [Field(name, value)];
    }

    function Get(name: string): (r: Option<FormValue>)
      reads this
      ensures r == Lookup(fields, name)
    {
      Lookup(fields, name)
    }
  }
}
