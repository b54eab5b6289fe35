/** The shared record and enumeration types of the application (types.ts). */
module Types {
  import opened Wrappers

  /** The aspect ratios an image request may name. */
  datatype AspectRatio = R1x1 | R2x3 | R3x2 | R3x4 | R4x3 | R9x16 | R16x9 | R21x9

  /** The output sizes of the 'pro' image model. */
  datatype ImageSize = Size1K | Size2K | Size4K

  /** Who wrote a chat message. */
  datatype Role = User | Model

  /** A link to a source that grounds a model reply. */
  datatype GroundingUrl = GroundingUrl(uri: string, title: string)

  /** One grounding chunk of a reply: a web source, a maps source, both or neither. */
  datatype GroundingChunk = GroundingChunk(web: Option<GroundingUrl>, maps: Option<GroundingUrl>)

  /** A chat message as the chat panel stores it; the id and the unused optional fields are not modelled. */
  datatype ChatMessage = ChatMessage(role: Role, text: string, groundingUrls: Option<seq<GroundingUrl>>)
}
