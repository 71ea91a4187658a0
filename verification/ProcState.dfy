/** The states of a process table entry, for the sleeping half and the scheduling
    half of the process code alike. */
module ProcState {
  datatype State = Unused | Embryo | Sleeping | Runnable | Running | Zombie
}
