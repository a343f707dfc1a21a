/** How one tool call is turned into an observation (tools/registry.py). */
module ToolExecution {
  import opened Types

  const DISPLAY_LIMIT: nat := 500

  /** `observation` is the full text for the model; `display` is what the trace and the stored turn carry. */
  datatype Execution = Execution(callId: string, name: string, ok: bool, display: string, observation: string)

  const TRUNCATION_MARK: string := "… [truncated]"

  function Truncate(text: string): (shown: string)
    ensures |shown| <= 513
    ensures |text| <= DISPLAY_LIMIT ==> shown == text
    ensures |text| > DISPLAY_LIMIT ==> |shown| == 513 && forall i :: 0 <= i < DISPLAY_LIMIT ==> shown[i] == text[i]
  {
    if |text| <= DISPLAY_LIMIT then text else text[..DISPLAY_LIMIT] + TRUNCATION_MARK
  }

  function ExecutionOf(call: ToolCall, ok: bool, observation: string): Execution {
    Execution(call.id, call.name, ok, Truncate(observation), observation)
  }
}
