/**
 * The records the components share: a chat message and a stored chat row
 * (src/lib/supabase.ts and src/lib/supabase-client.ts declare the same shape).
 */
module ChatTypes {
  import opened Wrappers

  /** `{ role, content }`; the role is free text ("user", "bot", ...). */
  datatype Message = Message(role: string, content: string)

  /** A row of the `chats` table; `userId` is the optional `user_id` column. */
  datatype Chat = Chat(
    id: string,
    title: string,
    createdAt: string,
    messages: seq<Message>,
    userId: Option<string>)
}
