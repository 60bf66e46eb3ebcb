/** The `users` table as the backend reads and updates it. */
module Users {
  import opened Common

  datatype Platform = Ios | Android

  datatype UserRow = UserRow(
    id: string,
    email: string,
    name: string,
    role: string,
    fcmToken: Option<string>,
    fcmPlatform: Option<Platform>,
    fcmUpdatedAt: Option<int>)

  /** `.eq("id", id)` */
  function WithId(users: seq<UserRow>, id: string): (r: seq<UserRow>)
    ensures forall u :: u in r <==> u in users && u.id == id
    decreases |users|
  {
    if users == [] then []
    else (if users[0].id == id then [users[0]] else []) + WithId(users[1..], id)
  }

  /** `.eq("email", email)` */
  function WithEmail(users: seq<UserRow>, email: string): (r: seq<UserRow>)
    ensures forall u :: u in r <==> u in users && u.email == email
    decreases |users|
  {
    if users == [] then []
    else (if users[0].email == email then [users[0]] else []) + WithEmail(users[1..], email)
  }
}
