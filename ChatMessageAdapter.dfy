/**
 * Field-for-field conversion between the wire form of a message
 * (ChatMessageDto) and the view model's ChatMessageModel.
 */
module ChatMessageAdapter {
  import opened ChatMessages

  /** The wire form of a message, with the same three fields. */
  datatype ChatMessageDto = ChatMessageDto(role: string, content: string, timestamp: Instant)

  /** Copies role, content and timestamp verbatim from the wire form. */
  function ToChatMessageModel(dto: ChatMessageDto): (m: ChatMessage)
    ensures m.role == dto.role && m.content == dto.content && m.timestamp == dto.timestamp
    ensures m.IsUser() <==> dto.role == "user"
  {
    ChatMessage(dto.role, dto.content, dto.timestamp)
  }

  /** Copies role, content and timestamp verbatim from the model. */
  function ToChatMessageDto(m: ChatMessage): (dto: ChatMessageDto)
    ensures dto.role == m.role && dto.content == m.content && dto.timestamp == m.timestamp
  {
    ChatMessageDto(m.role, m.content, m.timestamp)
  }

  /** Converts a whole list, element by element, keeping length and order. */
  function ToChatMessageModels(dtos: seq<ChatMessageDto>): (ms: seq<ChatMessage>)
    ensures |ms| == |dtos|
    ensures forall i :: 0 <= i < |dtos| ==> ms[i] == ToChatMessageModel(dtos[i])
  {
    if dtos == [] then [] else [ToChatMessageModel(dtos[0])] + ToChatMessageModels(dtos[1..])
  }

  /** model -> DTO -> model gives back the same message. */
  lemma ModelRoundTrip(m: ChatMessage)
    ensures ToChatMessageModel(ToChatMessageDto(m)) == m
  {
  }

  /** DTO -> model -> DTO gives back the same DTO. */
  lemma DtoRoundTrip(dto: ChatMessageDto)
    ensures ToChatMessageDto(ToChatMessageModel(dto)) == dto
  {
  }

  /** Converting a list loses nothing: each DTO is recovered from its converted element. */
  lemma ModelsRoundTrip(dtos: seq<ChatMessageDto>)
    ensures |ToChatMessageModels(dtos)| == |dtos|
    ensures forall i :: 0 <= i < |dtos| ==> ToChatMessageDto(ToChatMessageModels(dtos)[i]) == dtos[i]
  {
  }

  /** List conversion distributes over concatenation (a `Select` streams its input in order). */
  lemma ModelsOfConcat(a: seq<ChatMessageDto>, b: seq<ChatMessageDto>)
    ensures ToChatMessageModels(a + b) == ToChatMessageModels(a) + ToChatMessageModels(b)
  {
  }

  /** Two DTO lists that convert to the same model list are the same list. */
  lemma ModelsInjective(a: seq<ChatMessageDto>, b: seq<ChatMessageDto>)
    requires ToChatMessageModels(a) == ToChatMessageModels(b)
    ensures a == b
  {
  }
}
