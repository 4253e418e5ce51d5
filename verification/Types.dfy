/** The records shared by the jukebox components and hooks. */
module Types {

  /** A song as the jukebox components hand it around; `year` is optional. */
  datatype Song = Song(id: string, number: string, title: string, artist: string, year: Option<int>)

  /** One confirmed sign-up in the ticket queue. */
  datatype QueueEntry = QueueEntry(id: string, name: string, song: Song, ticketNumber: string, timestamp: int)

  /** The sign-up wizard's stages. */
  datatype WizardState = Idle | SongSelected | EnterName | Playing | Payment | Complete

  /** A value that may be absent (`null`/`undefined` in the source). */
  datatype Option<+T> = None | Some(value: T)
}
