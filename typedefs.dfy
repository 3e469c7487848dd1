/** Shared types of the chat service: a conversation is an ordered sequence of
    messages, and a tokeniser turns text into a sequence of string tokens. */
module Typedefs {

  datatype Role = User | Assistant | System

  datatype Message = Message(role: Role, content: string)

  /** A tokeniser token, as the generator consumes and produces it. */
  type Token = string

  /** The `content` field of every message, in message order. */
  function Contents(messages: seq<Message>): seq<string>
  {
    seq(|messages|, i requires 0 <= i < |messages| => messages[i].content)
  }
}
