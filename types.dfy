/** The application's shared types (types.ts): screens, characters and behavior lessons. */
module Types {

  /** The three screens of the app. */
  datatype Screen = Home | Setup | Chat

  datatype CharacterId = Zouzou | SnowPrincess | SpiderHero | IslandGirl | Antar | Aisha

  datatype BehaviorId = Hygiene | Respect | Study | Eating | Cleaning | Sharing | Honesty | Sleep | Kindness

  /** A selectable persona; `voiceName` is the voice requested from the live session. */
  datatype Character = Character(
    id: CharacterId, name: string, title: string, avatarUrl: string,
    themeColor: string, voiceName: string, systemPromptBase: string)

  /** A lesson topic; `promptContext` is appended to the persona's prompt. */
  datatype Behavior = Behavior(
    id: BehaviorId, title: string, emoji: string, description: string, promptContext: string)
}
