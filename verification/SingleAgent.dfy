/** The smallest cluster, for concrete runs: one agent on one node, one env. */
module SingleAgent {
  import opened FloxApi
  import opened EnvMachine

  const NODE := "node-a"
  const ENV := Key("ns", "env")
  const AGENT := TaskId(NODE, ENV)

  ghost predicate OneAgent(c: Config) { c.nodes == {NODE} && c.realizeSlots == 2 }

  function Running(task: Task): map<TaskId, Task> { map[AGENT := task] }

  const FREE := map[NODE := 0]
  const TAKEN := map[NODE := 1]

  function At(h: History, tasks: map<TaskId, Task>, due: set<TaskId>, slots: map<string, int>, log: seq<Event>): State {
    State(map[ENV := h], tasks, due, slots, map[], map[], log)
  }
}
