/** Reading the input fields a model asks for (intake.go, parseIntakeFields). */
module Intake {
  import Think
  import JsonArray

  datatype Field = Field(name: string, kind: string, caption: string, required: bool, options: seq<string>)

  /** A field as stored with its run, in the order asked for. */
  datatype Stored = Stored(run: nat, field: Field, ordinality: nat)

  datatype Asked = NoList | Asked(fields: seq<Field>)

  /** What an answer asks for: the array taken from it without its reasoning, decoded. */
  ghost predicate AsksFor(answer: string, decode: string -> Asked, r: Asked) {
    exists raw :: JsonArray.Extracted(Think.Strip(Think.THINK, answer), raw)
                  && r == if raw == "" then NoList else decode(raw)
  }

  method ParseIntakeFields(answer: string, decode: string -> Asked) returns (r: Asked)
    ensures AsksFor(answer, decode, r)
  {
    Think.ThinkIsUsable();
    var text := Think.StripThinkBlocks(Think.THINK, answer);
    var raw := JsonArray.ExtractJSONArray(text);
    r := if raw == "" then NoList else decode(raw);
  }

  /** An answer asks for one thing only. */
  lemma {:induction false} AskedIsUnique(answer: string, decode: string -> Asked, r: Asked, r': Asked)
    requires AsksFor(answer, decode, r) && AsksFor(answer, decode, r')
    ensures r == r'
  {
    var text := Think.Strip(Think.THINK, answer);
    var raw :| JsonArray.Extracted(text, raw) && r == if raw == "" then NoList else decode(raw);
    var raw' :| JsonArray.Extracted(text, raw') && r' == if raw' == "" then NoList else decode(raw');
    JsonArray.ExtractedIsUnique(text, raw, raw');
  }

  /** An answer that, reasoning aside, is one array among prose asks for what that array decodes
      to, when its items are balanced. */
  lemma {:induction false} ArrayAmongProse(answer: string, before: string, items: string, after: string,
                                           decode: string -> Asked)
    requires ']' !in after && JsonArray.Balanced(items)
    requires Think.Strip(Think.THINK, answer) == before + ("[" + items + "]") + after
    ensures AsksFor(answer, decode, decode("[" + items + "]"))
  {
    JsonArray.ArrayComesBack(before, items, after);
    assert JsonArray.Extracted(Think.Strip(Think.THINK, answer), "[" + items + "]");
  }

  function Numbered(run: nat, fields: seq<Field>): (r: seq<Stored>)
    ensures |r| == |fields| && forall i :: 0 <= i < |r| ==> r[i] == Stored(run, fields[i], i + 1)
  {
    seq(|fields|, i requires 0 <= i < |fields| => Stored(run, fields[i], i + 1))
  }

  /** The stored fields behind a list of edges; a missing one is skipped. */
  function FieldsAt(rels: seq<nat>, fields: map<nat, Stored>): seq<Stored> {
    if rels == [] then []
    else
      var last := rels[|rels| - 1];
      FieldsAt(rels[..|rels| - 1], fields) + (if last in fields then [fields[last]] else [])
  }

  lemma {:induction false} FieldsAtSnoc(rels: seq<nat>, last: nat, fields: map<nat, Stored>, f: Stored)
    requires last !in fields && last !in rels
    ensures FieldsAt(rels + [last], fields[last := f]) == FieldsAt(rels, fields) + [f]
  {
    assert (rels + [last])[..|rels|] == rels;
    FieldsAtFrame(rels, last, fields, f);
  }

  lemma {:induction false} FieldsAtFrame(rels: seq<nat>, last: nat, fields: map<nat, Stored>, f: Stored)
    requires last !in rels
    ensures FieldsAt(rels, fields[last := f]) == FieldsAt(rels, fields)
  {
    if rels != [] {
      assert rels[|rels| - 1] in rels;
      FieldsAtFrame(rels[..|rels| - 1], last, fields, f);
    }
  }
}
