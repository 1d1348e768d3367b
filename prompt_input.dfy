/** The prompt box: a text area, an optional list of demo prompts to fill
    it from, and a submit button that ignores blank prompts. */
module PromptInput {
  import opened Prelude
  import JsText

  /** An entry of `demoPrompts`. */
  datatype DemoPrompt = DemoPrompt(value: string, labelText: string)

  /** `demoPrompts.find(item => item.value === value)` */
  function FindDemo(demos: seq<DemoPrompt>, value: string): (r: Option<DemoPrompt>)
    ensures r.None? <==> forall i :: 0 <= i < |demos| ==> demos[i].value != value
    ensures r.Some? ==> exists i :: IsFirstMatch(demos, value, i) && demos[i] == r.value
  {
    if demos == [] then None
    else if demos[0].value == value then (assert IsFirstMatch(demos, value, 0); Some(demos[0]))
    else
      var r := FindDemo(demos[1..], value);
      assert r.Some? ==> exists i :: IsFirstMatch(demos, value, i) && demos[i] == r.value by {
        if r.Some? {
          var i :| IsFirstMatch(demos[1..], value, i) && demos[1..][i] == r.value;
          forall j | 0 <= j < i + 1 ensures demos[j].value != value {
            if j > 0 {
              assert demos[j] == demos[1..][j - 1];
            }
          }
          assert IsFirstMatch(demos, value, i + 1);
        }
      }
      r
  }

  /** `i` is the first demo entry with the given value. */
  predicate IsFirstMatch(demos: seq<DemoPrompt>, value: string, i: int) {
    && 0 <= i < |demos| && demos[i].value == value
    && forall j :: 0 <= j < i ==> demos[j].value != value
  }

  class PromptInput {
    const demos: seq<DemoPrompt>
    var prompt: string
    /** The prompts `onSubmit` received, oldest first. */
    var submitted: seq<string>

    constructor (demos: seq<DemoPrompt>)
      ensures this.demos == demos && prompt == "" && submitted == []
    {
      this.demos := demos;
      prompt := "";
      submitted := [];
    }

    /** The text area's `onChange`. */
    method Edit(text: string)
      modifies this
      ensures prompt == text && submitted == old(submitted)
    {
      prompt := text;
    }

    /** `handleSelectChange`: the prompt becomes the label of the first demo
        with that value; an unknown value changes nothing. */
    method SelectDemo(value: string)
      modifies this
      ensures FindDemo(demos, value).None? ==> prompt == old(prompt)
      ensures FindDemo(demos, value).Some? ==> prompt == FindDemo(demos, value).value.labelText
      ensures submitted == old(submitted)
    {
      var selected := FindDemo(demos, value);
      if selected.Some? {
        prompt := selected.value.labelText;
      }
    }

    /** The button's `disabled` flag. */
    function Disabled(): (b: bool)
      reads this
      ensures b <==> JsText.IsBlank(prompt)
    {
      JsText.TrimEmptyIff(prompt);
      JsText.Trim(prompt) == ""
    }

    /** `handleSubmit`: a blank prompt is ignored; otherwise the prompt is
        passed on as typed, untrimmed, and stays in the box. */
    method Submit()
      modifies this
      ensures JsText.IsBlank(prompt) ==> submitted == old(submitted)
      ensures !JsText.IsBlank(prompt) ==> submitted == old(submitted) + [prompt]
      ensures prompt == old(prompt)
    {
      JsText.TrimEmptyIff(prompt);
      if JsText.Trim(prompt) != "" {
        submitted := submitted + [prompt];
      }
    }
  }
}
