/** The records shared by the screens (types.ts). */
module Types {

  datatype Speaker = User | Coach | System

  /** A transcript or feedback line; an absent `isFeedback` is modelled as false. */
  datatype ChatMessage = ChatMessage(speaker: Speaker, text: string, isFeedback: bool)

  datatype UserSettings = UserSettings(nativeLanguage: string, targetLanguage: string, skillLevel: string)
}
