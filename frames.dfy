/**
 * The frames that the core processors special-case, as one tagged union.
 * Every frame kind the processors do not inspect is an `OtherFrame`.
 */
module Frames {
  import opened JsonValues

  datatype Direction = Downstream | Upstream

  /**
   * Which class a response marker is an instance of: the classes declared
   * locally in utils.py, or the ones defined by the pipecat framework (which
   * is what the LLM services emit). An `isinstance` test against one never
   * matches an instance of the other.
   */
  datatype Origin = Local | Pipecat

  datatype Frame =
    | OpenAILLMContextFrame(context: string)
    | LLMFullResponseStartFrame(origin: Origin)
    | LLMFullResponseEndFrame(origin: Origin)
    | TTSSpeakFrame(text: string)
    | TextFrame(text: string)
    | StrandsAgentRequestFrame(text: string)
    | RTVIServerMessageFrame(data: Json)
    | OtherFrame(name: string)

  /** One call of `push_frame`: the frame and the direction it travels. */
  datatype Push = Push(frame: Frame, direction: Direction)

}
