/** The five virtual users of the multi-user demo. The backend list
    (convex/agents/multiUser.ts) and the list embedded in the multi-user page
    (components/chat/chat-multi-user.tsx) are the same five records, so both
    sides use this one definition. */
module Users {
  import opened Common

  datatype DemoUser = DemoUser(id: string, name: string, theme: string, description: string)

  const DemoUsers: seq<DemoUser> := [
    DemoUser("alice", "Alice 👩‍💻", "blue", "前端开发工程师"),
    DemoUser("bob", "Bob 👨‍🎨", "green", "UI/UX设计师"),
    DemoUser("charlie", "Charlie 🧑‍🎓", "purple", "产品经理"),
    DemoUser("diana", "Diana 👩‍🔬", "pink", "数据科学家"),
    DemoUser("eve", "Eve 🧑‍💼", "orange", "项目负责人")
  ]

  /** The ids of the demo users. */
  const DemoIds: set<string> := {"alice", "bob", "charlie", "diana", "eve"}

  /** The id the backend falls back to for every caller it does not recognise. */
  const DefaultUserId: string := "default-user"

  /** `DEMO_USERS.find(u => u.id === id)`. */
  function FindUser(id: string): (r: Option<DemoUser>)
    ensures r.Some? <==> id in DemoIds
    ensures r.Some? ==> r.value in DemoUsers && r.value.id == id
  {
    First(DemoUsers, (u: DemoUser) => u.id == id)
  }

  /** Each demo id names exactly one demo user. */
  lemma DemoIdsAreUnique(u: DemoUser, v: DemoUser)
    requires u in DemoUsers && v in DemoUsers && u.id == v.id
    ensures u == v
  {
  }

  /** Every demo user is found by its own id, and no demo id is empty or the fallback id. */
  lemma FindUserOwnId(u: DemoUser)
    requires u in DemoUsers
    ensures FindUser(u.id) == Some(u)
    ensures u.id != "" && u.id != DefaultUserId && u.id in DemoIds && u.name != ""
  {
    var f := FindUser(u.id);
    DemoIdsAreUnique(f.value, u);
  }
}
