/** `BaseAgent.call_llm`: the argument checks and the message list built in
    front of the chat-completion service. The service itself is an oracle:
    the reply to the n-th request is `respond(n, request)`, and the client
    keeps the log of every request it was sent. */
module Llm {
  import opened Values

  datatype Message = Message(role: string, content: string)

  /** One chat-completion request: model, messages and temperature. */
  datatype Request = Request(model: string, messages: seq<Message>, temperature: real)

  /** The shared chat-completion client, with the configured defaults
      `LLM` and `base_temperature`. */
  class Client {
    const respond: (nat, Request) -> string
    const defaultModel: string
    const baseTemperature: real
    var log: seq<Request>

    constructor (respond: (nat, Request) -> string, defaultModel: string, baseTemperature: real)
      ensures this.respond == respond && this.defaultModel == defaultModel
      ensures this.baseTemperature == baseTemperature && log == []
    {
      this.respond := respond;
      this.defaultModel := defaultModel;
      this.baseTemperature := baseTemperature;
      log := [];
    }

    /** `chat.completions.create(...).choices[0].message.content`. */
    method Create(request: Request) returns (content: string)
      modifies this
      ensures log == old(log) + [request]
      ensures content == respond(|old(log)|, request)
    {
      content := respond(|log|, request);
      log := log + [request];
    }
  }

  /** The messages `call_llm` sends: `messages` unchanged when given (the
      prompt is then ignored), else one user message holding the prompt,
      else ValueError. */
  function Messages(prompt: Option<string>, messages: Option<seq<Message>>): (r: Result<seq<Message>>)
    ensures messages.Some? ==> r == Ok(messages.value)
    ensures messages.None? && prompt.Some? ==> r == Ok([Message("user", prompt.value)])
    ensures r.Err? <==> messages.None? && prompt.None?
    ensures r.Err? ==> r.error.ValueError?
  {
    match messages
    case Some(m) => Ok(m)
    case None =>
      match prompt
      case Some(p) => Ok([Message("user", p)])
      case None => Err(ValueError("call_llm requires either `prompt` or `messages`."))
  }

  /** The request `call_llm(prompt, temperature=t)` sends. */
  function PromptRequest(model: string, prompt: string, temperature: real): Request {
    Request(model, [Message("user", prompt)], temperature)
  }

  /** `call_llm(prompt, messages, model, temperature)`; an absent model or
      temperature takes the client's configured default. */
  method CallLlm(client: Client, prompt: Option<string>, messages: Option<seq<Message>>,
                 model: Option<string>, temperature: Option<real>) returns (r: Result<string>)
    modifies client
    ensures Messages(prompt, messages).Err? ==> r == Err(Messages(prompt, messages).error) && client.log == old(client.log)
    ensures Messages(prompt, messages).Ok? ==>
      var request := Request(model.GetOr(client.defaultModel), Messages(prompt, messages).value,
                             temperature.GetOr(client.baseTemperature));
      client.log == old(client.log) + [request] && r == Ok(client.respond(|old(client.log)|, request))
  {
    var sent := Messages(prompt, messages);
    if sent.Err? {
      return Err(sent.error);
    }
    var content := client.Create(Request(model.GetOr(client.defaultModel), sent.value,
                                         temperature.GetOr(client.baseTemperature)));
    r := Ok(content);
  }

  /** `self.call_llm(prompt, temperature=t)`, the form most agents use: one
      request with the default model and a single user message. */
  method Ask(client: Client, prompt: string, temperature: real) returns (reply: string)
    modifies client
    ensures client.log == old(client.log) + [PromptRequest(client.defaultModel, prompt, temperature)]
    ensures reply == client.respond(|old(client.log)|, PromptRequest(client.defaultModel, prompt, temperature))
  {
    var r := CallLlm(client, Some(prompt), None, None, Some(temperature));
    reply := r.value;
  }
}
