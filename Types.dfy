/** The records exchanged with the server and kept by the client. */
module Types {
  import opened Common

  /** The user record the session store writes. The declared `User` type has
      only `id` and `username`, but both `login` and `register` also store an
      `email`, so the record carries it. */
  datatype User = User(id: string, username: string, email: string)

  datatype LoginRequest = LoginRequest(username: string, password: string)

  datatype RegisterRequest = RegisterRequest(username: string, password: string, email: string)

  /** What awaiting `loginUser`/`registerUser` gives: a parsed response with
      its `message` and the optional `data.token`, or a thrown error. */
  datatype AuthReply =
    | Responded(message: string, token: Option<string>)
    | Threw(message: string)

  datatype Checklist = Checklist(id: int, name: string, createdAt: Option<string>, updatedAt: Option<string>)

  datatype ChecklistItem = ChecklistItem(id: int, name: string, completed: bool, checklistId: int)

  /** Per-checklist progress as shown on the list page: `completed of total`. */
  datatype Progress = Progress(completed: nat, total: nat)
}
