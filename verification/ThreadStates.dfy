/** The states of a State Threads thread (st-1.9/common.h). */
module ThreadStates {

  datatype RunState = Running | Runnable | IoWait | LockWait | CondWait | Sleeping | Zombie | Suspended
}
