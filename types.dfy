/** The records the application passes around: chat messages, knowledge documents and ritual stages. */
module Types {

  /** Who a chat message is attributed to. */
  datatype Sender = User | AI | System

  /** One entry of a conversation log. */
  datatype Message = Message(id: string, sender: Sender, content: string)

  /** The classification the model assigns to an uploaded document. */
  datatype KnowledgeMetadata = KnowledgeMetadata(folder: string, tags: seq<string>)

  /** An uploaded document of the knowledge library. */
  datatype KnowledgeFile = KnowledgeFile(
    id: string,
    name: string,
    content: string,
    enabled: bool,
    createdAt: int,
    folder: string,
    tags: seq<string>)

  /** One phase of the ritual cycle; `duration` is in seconds. */
  datatype RitualStage = RitualStage(name: string, desc: string, duration: nat)
}
