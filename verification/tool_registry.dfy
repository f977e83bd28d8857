/** The tool list the agent may call, and lookup by name. */
module ToolRegistry {
  import opened Wrappers
  import opened TextLength

  /**
   * A registered tool. `run` stands for the tool's function followed by
   * Python's `str` of its result: the text the agent loop records as the
   * observation.
   */
  datatype Tool = Tool(name: string, run: string -> string)

  /** The exception `find_tool_by_name` raises. */
  datatype LookupError = ValueError(message: string)

  /** The message of the `ValueError` raised for an unknown tool name. */
  function NotFoundMessage(toolName: string): (message: string)
  {
    "Tool with name " + toolName + " not found"
  }

  /** No tool in `tools` is called `toolName`. */
  predicate NoneNamed(tools: seq<Tool>, toolName: string)
  {
    forall k :: 0 <= k < |tools| ==> tools[k].name != toolName
  }

  /**
   * `find_tool_by_name`: the first tool whose name equals `toolName`
   * exactly, or a `ValueError` when there is none.
   */
  function FindToolByName(tools: seq<Tool>, toolName: string): (r: Result<Tool, LookupError>)
    ensures r.Success? ==> r.value in tools && r.value.name == toolName
    ensures r.Failure? <==> NoneNamed(tools, toolName)
    ensures r.Failure? ==> r.error == ValueError(NotFoundMessage(toolName))
  {
    if tools == [] then Failure(ValueError(NotFoundMessage(toolName)))
    else if tools[0].name == toolName then Success(tools[0])
    else
      var r := FindToolByName(tools[1..], toolName);
      assert NoneNamed(tools[1..], toolName) ==> NoneNamed(tools, toolName) by {
        if NoneNamed(tools[1..], toolName) {
          forall k | 0 < k < |tools| ensures tools[k].name != toolName {
            assert tools[1..][k - 1] == tools[k];
          }
        }
      }
      r
  }

  /**
   * Lookup returns the tool at the first position whose name matches, even
   * when later tools share that name: the list order decides.
   */
  lemma {:induction false} FindToolByNameFirstMatch(tools: seq<Tool>, toolName: string, i: nat)
    requires i < |tools| && tools[i].name == toolName
    requires NoneNamed(tools[..i], toolName)
    ensures FindToolByName(tools, toolName) == Success(tools[i])
    decreases i
  {
    if i > 0 {
      assert tools[..i][0] == tools[0];
      assert tools[1..][..i - 1] == tools[1..i];
      assert forall k :: 0 <= k < i - 1 ==> tools[1..i][k] == tools[..i][k + 1];
      FindToolByNameFirstMatch(tools[1..], toolName, i - 1);
    }
  }

  /** Python's `str` of a non-negative `int`: its decimal digits, most significant first. */
  function NatToDecimal(n: nat): (r: string)
    ensures |r| >= 1
    ensures forall k :: 0 <= k < |r| ==> '0' <= r[k] <= '9'
    ensures r[0] == '0' ==> r == "0"
    ensures r == "0" <==> n == 0
  {
    if n < 10 then [('0' as int + n) as char]
    else NatToDecimal(n / 10) + [('0' as int + n % 10) as char]
  }

  /** The number a string of decimal digits denotes. */
  function DecimalValue(s: string): (n: nat)
    requires forall k :: 0 <= k < |s| ==> '0' <= s[k] <= '9'
  {
    if s == [] then 0 else DecimalValue(s[..|s| - 1]) * 10 + (s[|s| - 1] as int - '0' as int)
  }

  /** Reading back the digits `NatToDecimal` writes gives the number again. */
  lemma {:induction false} NatToDecimalRoundTrip(n: nat)
    ensures DecimalValue(NatToDecimal(n)) == n
  {
    if n >= 10 {
      var r := NatToDecimal(n);
      assert r[..|r| - 1] == NatToDecimal(n / 10);
      NatToDecimalRoundTrip(n / 10);
    } else {
      assert NatToDecimal(n)[..0] == [];
    }
  }

  /** The `get_text_length` tool as registered by the `@tool` decorator. */
  const GetTextLengthTool: Tool := Tool("get_text_length", text => NatToDecimal(GetTextLength(text)))

  /** On a word in single quotes the registered tool reports the word's length in decimal. */
  lemma {:induction false} GetTextLengthToolQuoted(word: string)
    requires NoStrippedEnds(word)
    ensures GetTextLengthTool.run("'" + word + "'") == NatToDecimal(|word|)
  {
    assert "'" + word + "'" == ['\''] + word + ['\''];
    GetTextLengthQuoted(word, '\'');
  }
}
