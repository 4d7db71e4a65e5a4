/** The mock backend's seed records from src/api/config.ts: three accounts, three posts
    and two comments. Posts and comments embed a snapshot of their author. */
module Seed {
  import opened Results
  import opened Types

  const John := User("1", "johndoe", "john@example.com", Some("John"), Some("Doe"),
    Some("Software developer passionate about building great user experiences. Love coffee and coding!"),
    Some("/images/avatars/user1.png"), true, 1250, 456, 89, 1705314600000, 1718898300000)

  const Sarah := User("2", "sarahtech", "sarah@example.com", Some("Sarah"), Some("Johnson"),
    Some("Tech enthusiast | UI/UX Designer | Creating beautiful digital experiences \U{2728}"),
    Some("/images/avatars/user2.jpg"), false, 890, 234, 156, 1706774400000, 1719059400000)

  const Mike := User("3", "mikedev", "mike@example.com", Some("Mike"), Some("Chen"),
    Some("Full-stack developer | Open source contributor | Always learning new technologies"),
    Some("/images/avatars/user3.png"), true, 2100, 567, 203, 1699626000000, 1719134100000)

  /** `mockUsers`. Nothing in the client ever adds to or removes from it. */
  const Users: seq<User> := [John, Sarah, Mike]

  /** `mockPosts`. */
  const Posts: seq<Post> := [
    Post("1", "Just finished building an amazing React app with TypeScript! The type safety really makes a difference in large projects. Anyone else loving the developer experience? \U{1F680}",
      "1", John, 42, 8, false, 1719153000000, 1719153000000),
    Post("2", "Working on some new UI designs for a social platform. The key is finding the perfect balance between functionality and aesthetics. What are your thoughts on minimalist design? \U{1F3A8}",
      "2", Sarah, 67, 12, true, 1719141300000, 1719141300000),
    Post("3", "Contributing to open source projects has been one of the most rewarding experiences in my career. If you haven't tried it yet, I highly recommend starting with small issues. The community is incredibly welcoming! \U{1F4BB}",
      "3", Mike, 89, 15, false, 1719135900000, 1719135900000)
  ]

  /** `mockComments`. */
  const Comments: seq<Comment> := [
    Comment("1", "Totally agree! TypeScript has been a game changer for our team.", "1", "2", Sarah, None, 5, false, 1719153900000, 1719153900000),
    Comment("2", "Love the minimalist approach! Clean designs are so much easier to navigate.", "2", "3", Mike, None, 3, true, 1719142200000, 1719142200000)
  ]

  /** Account ids, usernames and emails are pairwise distinct. */
  ghost predicate UniqueAccounts(users: seq<User>) {
    forall i, j :: 0 <= i < j < |users| ==>
      users[i].id != users[j].id && users[i].username != users[j].username && users[i].email != users[j].email
  }

  /** Every post's author id names an account, and its embedded author is that account. */
  ghost predicate PostsAuthored(users: seq<User>, posts: seq<Post>) {
    forall k :: 0 <= k < |posts| ==> posts[k].author in users && posts[k].author.id == posts[k].authorId
  }

  ghost predicate CommentsAuthored(users: seq<User>, comments: seq<Comment>) {
    forall k :: 0 <= k < |comments| ==> comments[k].author in users && comments[k].author.id == comments[k].authorId
  }

  /** The seed satisfies the account invariants the rest of the model relies on. */
  lemma SeedInvariants()
    ensures UniqueAccounts(Users)
    ensures PostsAuthored(Users, Posts)
    ensures CommentsAuthored(Users, Comments)
  {
  }
}
