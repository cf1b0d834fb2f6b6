/** `ensure_string_output`: the step after the tool-calling agent that makes
    the 'output' entry of the agent's result dictionary a single str, so that
    the chat front-end can display it and record it in the history. */
module OutputNormaliser {
  import opened PyValues

  /** The one failure the normaliser can raise: `text += x` with `x` not a
      str raises TypeError; `operand` is the value that was added. */
  datatype Error = ConcatTypeError(operand: Value)

  /** A value returned normally, or the exception raised instead. */
  datatype Result<T> = Ok(value: T) | Err(error: Error)

  const OutputKey: string := "output"

  /** A content block that the loop reads text from: a dict whose 'type'
      entry is the str 'text'. */
  predicate IsTextBlock(item: Value)
  {
    item.PyDict? && Get(item.fields, "type") == PyStr("text")
  }

  /** `item.get('text', '')` of a text block. */
  function BlockText(item: Value): Value
    requires IsTextBlock(item)
  {
    GetOr(item.fields, "text", PyStr(""))
  }

  /** A text block whose text is not a str: adding it to the text raises. */
  predicate Raises(item: Value)
  {
    IsTextBlock(item) && !BlockText(item).PyStr?
  }

  /** No item of the list raises. */
  predicate Clean(items: seq<Value>)
  {
    forall i :: 0 <= i < |items| ==> !Raises(items[i])
  }

  /** One pass of the loop body on the text built so far. */
  function Step(acc: Result<string>, item: Value): Result<string>
  {
    match acc
    case Err(_) => acc
    case Ok(text) =>
      if IsTextBlock(item) then
        var t := BlockText(item);
        if t.PyStr? then Ok(text + t.s) else Err(ConcatTypeError(t))
      else if item.PyStr? then Ok(text + item.s)
      else acc
  }

  /** The loop over a list output, run from the empty str: the text built
      from the whole list, or the TypeError raised on the way. It succeeds
      exactly when no item raises. */
  function Flatten(items: seq<Value>): (r: Result<string>)
    ensures r.Ok? <==> Clean(items)
    decreases |items|
  {
    if items == [] then Ok("")
    else
      var prefix := items[..|items| - 1];
      assert forall i :: 0 <= i < |prefix| ==> prefix[i] == items[i];
      Step(Flatten(prefix), items[|items| - 1])
  }

  /** Sequential composition of two runs of the loop: the first error wins,
      otherwise the texts are joined. */
  function Then(a: Result<string>, b: Result<string>): Result<string>
  {
    match a
    case Err(_) => a
    case Ok(s) =>
      match b
      case Err(_) => b
      case Ok(t) => Ok(s + t)
  }

  /** The strings a list contributes, in list order: the text of each text
      block (the empty str when it has no 'text' entry) and each bare str;
      every other item contributes nothing. */
  function KeptTexts(items: seq<Value>): seq<string>
    requires Clean(items)
  {
    if items == [] then []
    else
      var head := items[0];
      assert !Raises(items[0]);
      (if IsTextBlock(head) then [BlockText(head).s]
       else if head.PyStr? then [head.s]
       else [])
      + KeptTexts(items[1..])
  }

  /** `''.join(ss)` */
  function Concat(ss: seq<string>): string
  {
    if ss == [] then "" else ss[0] + Concat(ss[1..])
  }

  /** The loop of `ensure_string_output` over a list output: it builds the
      text item by item, and stops with the TypeError when an item raises. */
  method Concatenate(items: seq<Value>) returns (r: Result<string>)
    ensures r == Flatten(items)
  {
    var text := "";
    var i := 0;
    while i < |items|
      invariant 0 <= i <= |items|
      invariant Flatten(items[..i]) == Ok(text)
    {
      var item := items[i];
      assert items[..i + 1][..i] == items[..i];
      if IsTextBlock(item) {
        var t := GetOr(item.fields, "text", PyStr(""));
        if !t.PyStr? {
          FlattenStopsAtError(items, i + 1);
          return Err(ConcatTypeError(t));
        }
        text := text + t.s;
      } else if item.PyStr? {
        text := text + item.s;
      }
      i := i + 1;
    }
    assert items[..i] == items;
    r := Ok(text);
  }

  /** Running the loop over `xs + ys` is running it over `xs`, then over `ys`. */
  lemma {:induction false} FlattenAppend(xs: seq<Value>, ys: seq<Value>)
    ensures Flatten(xs + ys) == Then(Flatten(xs), Flatten(ys))
    decreases |ys|
  {
    if ys == [] {
      assert xs + ys == xs;
      if Flatten(xs).Ok? {
        assert Flatten(xs).value + "" == Flatten(xs).value;
      }
    } else {
      var ys' := ys[..|ys| - 1];
      var y := ys[|ys| - 1];
      assert (xs + ys)[..|xs + ys| - 1] == xs + ys';
      assert (xs + ys)[|xs + ys| - 1] == y;
      FlattenAppend(xs, ys');
      var a, b := Flatten(xs), Flatten(ys');
      if a.Ok? && b.Ok? {
        if IsTextBlock(y) && BlockText(y).PyStr? {
          assert a.value + b.value + BlockText(y).s == a.value + (b.value + BlockText(y).s);
        } else if !IsTextBlock(y) && y.PyStr? {
          assert a.value + b.value + y.s == a.value + (b.value + y.s);
        }
      }
    }
  }

  /** Once an item raises, the rest of the list does not matter. */
  lemma FlattenStopsAtError(items: seq<Value>, n: nat)
    requires n <= |items|
    requires Flatten(items[..n]).Err?
    ensures Flatten(items) == Flatten(items[..n])
  {
    FlattenAppend(items[..n], items[n..]);
    assert items[..n] + items[n..] == items;
  }

  /** When no item raises, the loop yields the kept texts joined in list
      order. */
  lemma {:induction false} FlattenIsConcatOfKept(items: seq<Value>)
    requires Clean(items)
    ensures Flatten(items) == Ok(Concat(KeptTexts(items)))
    decreases |items|
  {
    if items != [] {
      var head, tail := items[0], items[1..];
      assert [head] + tail == items;
      assert Clean(tail) by {
        forall i | 0 <= i < |tail| ensures !Raises(tail[i]) {
          assert tail[i] == items[i + 1];
        }
      }
      FlattenIsConcatOfKept(tail);
      FlattenAppend([head], tail);
      assert [head][..0] == [];
      assert !Raises(items[0]);
      var kept := KeptTexts(items);
      if IsTextBlock(head) {
        assert "" + BlockText(head).s == BlockText(head).s;
        assert kept == [BlockText(head).s] + KeptTexts(tail);
        assert kept[1..] == KeptTexts(tail);
      } else if head.PyStr? {
        assert "" + head.s == head.s;
        assert kept == [head.s] + KeptTexts(tail);
        assert kept[1..] == KeptTexts(tail);
      } else {
        assert kept == KeptTexts(tail);
        assert "" + Concat(kept) == Concat(kept);
      }
    }
  }

  /** The loop raises on the first item that raises, with that item's text
      as the offending operand. */
  lemma FlattenFirstError(items: seq<Value>, i: nat)
    requires i < |items| && Raises(items[i])
    requires Clean(items[..i])
    ensures Flatten(items) == Err(ConcatTypeError(BlockText(items[i])))
  {
    assert items[..i + 1][..i] == items[..i];
    FlattenStopsAtError(items, i + 1);
  }

  /** Items that are neither text blocks nor str (tool-call blocks, numbers,
      None, ...) contribute nothing, wherever they stand. */
  lemma FlattenDropsOtherItems(xs: seq<Value>, x: Value, ys: seq<Value>)
    requires !IsTextBlock(x) && !x.PyStr?
    ensures Flatten(xs + [x] + ys) == Flatten(xs + ys)
  {
    FlattenAppend(xs + [x], ys);
    FlattenAppend(xs, [x]);
    FlattenAppend(xs, ys);
    assert [x][..0] == [];
  }

  /** The text of two text blocks "A" and "B" is "AB"; a tool-call block
      between text and a bare str is dropped; a text block without a 'text'
      entry gives ""; an empty list gives "". */
  lemma FlattenExamples()
    ensures Flatten([PyDict(map["type" := PyStr("text"), "text" := PyStr("A")]),
                     PyDict(map["type" := PyStr("text"), "text" := PyStr("B")])]) == Ok("AB")
    ensures Flatten([PyDict(map["type" := PyStr("text"), "text" := PyStr("A")]),
                     PyDict(map["type" := PyStr("tool_use"), "name" := PyStr("search")]),
                     PyStr("B")]) == Ok("AB")
    ensures Flatten([PyDict(map["type" := PyStr("text")])]) == Ok("")
    ensures Flatten([]) == Ok("")
  {
    var a := PyDict(map["type" := PyStr("text"), "text" := PyStr("A")]);
    var b := PyDict(map["type" := PyStr("text"), "text" := PyStr("B")]);
    var tool := PyDict(map["type" := PyStr("tool_use"), "name" := PyStr("search")]);
    assert [a][..0] == [];
    assert Flatten([a]) == Ok("A") by { assert "" + "A" == "A"; }
    assert [a, b][..1] == [a];
    assert "A" + "B" == "AB";
    assert [a, tool][..1] == [a];
    assert Flatten([a, tool]) == Ok("A");
    assert [a, tool, PyStr("B")][..2] == [a, tool];
    var blank := PyDict(map["type" := PyStr("text")]);
    assert [blank][..0] == [];
    assert "" + "" == "";
  }

  /** The new contents of the result dictionary after `ensure_string_output`,
      or the TypeError it raises. A list output becomes the text of its
      items, a str output stays, and any other output (None when the key is
      missing) becomes its `str()`; no other key is written. */
  function Normalise(d: map<string, Value>, render: Value -> string): (r: Result<map<string, Value>>)
    ensures r.Ok? ==> OutputKey in r.value && r.value[OutputKey].PyStr?
    ensures r.Ok? ==> forall k :: k in r.value <==> k in d || k == OutputKey
    ensures r.Ok? ==> forall k :: k in d && k != OutputKey ==> r.value[k] == d[k]
    ensures r.Err? <==> Get(d, OutputKey).PyList? && !Clean(Get(d, OutputKey).items)
    ensures r.Err? ==> r == Err(Flatten(Get(d, OutputKey).items).error)
  {
    var output := Get(d, OutputKey);
    if output.PyList? then
      match Flatten(output.items)
      case Ok(text) => Ok(d[OutputKey := PyStr(text)])
      case Err(e) => Err(e)
    else if !output.PyStr? then
      Ok(d[OutputKey := PyStr(ToStr(output, render))])
    else
      Ok(d)
  }

  /** What 'output' holds afterwards, case by case: the same str, the kept
      texts of a list joined in order, or `str()` of anything else. */
  lemma NormaliseOutput(d: map<string, Value>, render: Value -> string)
    ensures Get(d, OutputKey).PyStr? ==> Normalise(d, render) == Ok(d)
    ensures Get(d, OutputKey).PyList? && Clean(Get(d, OutputKey).items) ==>
      Normalise(d, render) == Ok(d[OutputKey := PyStr(Concat(KeptTexts(Get(d, OutputKey).items)))])
    ensures OutputKey !in d ==> Normalise(d, render) == Ok(d[OutputKey := PyStr("None")])
    ensures !Get(d, OutputKey).PyStr? && !Get(d, OutputKey).PyList? ==>
      Normalise(d, render) == Ok(d[OutputKey := PyStr(ToStr(Get(d, OutputKey), render))])
  {
    var output := Get(d, OutputKey);
    if output.PyList? && Clean(output.items) {
      FlattenIsConcatOfKept(output.items);
    }
  }

  /** Normalising a normalised dictionary changes nothing. */
  lemma NormaliseIdempotent(d: map<string, Value>, render: Value -> string)
    requires Normalise(d, render).Ok?
    ensures Normalise(Normalise(d, render).value, render) == Normalise(d, render)
  {
  }

  /** The agent's result dictionary, updated in place. */
  class AgentResult {
    var entries: map<string, Value>

    constructor (entries: map<string, Value>)
      ensures this.entries == entries
    {
      this.entries := entries;
    }

    /** `ensure_string_output(agent_result)`: overwrites 'output' with a str
        and returns the same dictionary, or raises TypeError and leaves the
        dictionary as it was. */
    method EnsureStringOutput(render: Value -> string) returns (r: Result<AgentResult>)
      modifies this
      ensures Normalise(old(entries), render).Ok? ==>
        r == Ok(this) && entries == Normalise(old(entries), render).value
      ensures Normalise(old(entries), render).Err? ==>
        r == Err(Normalise(old(entries), render).error) && entries == old(entries)
    {
      var output := Get(entries, OutputKey);
      if output.PyList? {
        var text := Concatenate(output.items);
        if text.Err? {
          return Err(text.error);
        }
        entries := entries[OutputKey := PyStr(text.value)];
      } else if !output.PyStr? {
        entries := entries[OutputKey := PyStr(ToStr(output, render))];
      }
      r := Ok(this);
    }
  }
}
