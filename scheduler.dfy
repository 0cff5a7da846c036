/** The in-memory schedule store of the backend (backend/app/routes/scheduler.py):
    a module-level list that `POST /schedule/` appends to and `GET /schedule/` returns. */
module Scheduler {

  /** A posted JSON object, field name to value. */
  type Post = map<string, string>

  /** The reply of `schedule_post`. */
  datatype Scheduled = Scheduled(message: string, data: Post)

  class ScheduleStore {
    var scheduledPosts: seq<Post>

    /** The list starts empty when the process starts. */
    constructor ()
      ensures scheduledPosts == []
    {
      scheduledPosts := [];
    }

    /** `schedule_post`: the post goes to the end; earlier entries are untouched. */
    method SchedulePost(post: Post) returns (reply: Scheduled)
      modifies this
      ensures scheduledPosts == old(scheduledPosts) + [post]
      ensures |scheduledPosts| == |old(scheduledPosts)| + 1
      ensures forall i :: 0 <= i < |old(scheduledPosts)| ==> scheduledPosts[i] == old(scheduledPosts)[i]
      ensures reply == Scheduled("Post scheduled", post)
    {
      scheduledPosts := scheduledPosts + [post];
      reply := Scheduled("Post scheduled", post);
    }

    /** `get_schedule`: every entry, in insertion order, with nothing changed. */
    method GetSchedule() returns (posts: seq<Post>)
      ensures posts == scheduledPosts
    {
      posts := scheduledPosts;
    }
  }

  /** Read-back after a sequence of posts lists them in the order they were sent. */
  method InsertionOrderScenario(a: Post, b: Post)
  {
    var store := new ScheduleStore();
    var r1 := store.SchedulePost(a);
    var r2 := store.SchedulePost(b);
    var all := store.GetSchedule();
    assert all == [a, b];
    assert r1.data == a && r2.data == b;
  }
}
